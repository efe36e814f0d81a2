/** Files of every record format as text: what copying one out gives, from its bytes alone
    for streams and from the records written for the others. */
module Formats {
  import opened Records
  import opened TextView
  import opened Numbers

  // ---------------------------------------------------------------------
  // Streams
  // ---------------------------------------------------------------------

  /** A stream's bytes with its line ends as line feeds. */
  function Spelled(end: seq<Byte>, s: seq<Byte>): seq<Byte> {
    if s == [] then []
    else if end == [CR] && s[0] == CR then [LF] + Spelled(end, s[1..])
    else if end == [CR, LF] && s[0] == CR && |s| > 1 && s[1] == LF then Spelled(end, s[1..])
    else [s[0]] + Spelled(end, s[1..])
  }

  // The byte a line ends with.
  function Mark(end: seq<Byte>): Byte { if end == [CR] then CR else LF }

  // The line feed the last line is given if it has no end.
  function Tail(end: seq<Byte>, s: seq<Byte>): seq<Byte> {
    if s == [] || s[|s| - 1] == Mark(end) then [] else [LF]
  }

  lemma {:induction false} SpelledPlain(end: seq<Byte>, s: seq<Byte>)
    requires Possible(Stream(end)) && Mark(end) !in s
    ensures Spelled(end, s) == s
  {
    if s != [] {
      assert s == [s[0]] + s[1..];
      assert s[0] in s && (|s| > 1 ==> s[1] in s);
      SpelledPlain(end, s[1..]);
    }
  }

  lemma EndedIs(end: seq<Byte>, got: seq<Byte>, b: Byte)
    requires Possible(Stream(end)) && Mark(end) !in got
    ensures Ended(got + [b], end) <==> b == Mark(end)
    ensures b == Mark(end) ==>
      Trimmed(got + [b], end) ==
      if end == [CR, LF] && got != [] && got[|got| - 1] == CR then got[..|got| - 1] else got
  {
    var more := got + [b];
    assert more[|more| - 1..] == [b];
    if |more| > 1 {
      assert more[|more| - 2..] == [got[|got| - 1], b];
      assert more[..|more| - 2] == got[..|got| - 1];
    }
    assert more[..|more| - 1] == got;
  }

  lemma {:induction false} SpelledLine(end: seq<Byte>, got: seq<Byte>, rest: seq<Byte>)
    requires Possible(Stream(end)) && Mark(end) !in got
    ensures Ended(got + [Mark(end)], end)
    ensures Spelled(end, got + [Mark(end)] + rest) ==
            Trimmed(got + [Mark(end)], end) + [LF] + Spelled(end, rest)
    decreases |got|
  {
    hide Ended, Trimmed;
    var b := Mark(end);
    var s := got + [b] + rest;
    EndedIs(end, got, b);
    if got == [] {
      assert s[1..] == rest;
    } else {
      var after := got[1..];
      assert s[1..] == after + [b] + rest && got == [got[0]] + after && got[0] in got;
      SpelledLine(end, after, rest);
      EndedIs(end, after, b);
      if |got| > 1 {
        assert s[1] == got[1] && got[1] in got && after[|after| - 1] == got[|got| - 1];
        assert got[..|got| - 1] == [got[0]] + after[..|after| - 1];
      }
    }
  }

  // From within a record.
  lemma {:induction false} StreamFrom(end: seq<Byte>, data: seq<Byte>, pos: nat, got: seq<Byte>)
    requires Possible(Stream(end)) && pos <= |data| && Mark(end) !in got
    ensures var n, s := NextStream(end, data, pos, got), got + data[pos..];
      && (n.End? ==> s == [])
      && (n.Rec? ==> Prepend(n.data + [LF], Lines(Stream(end), data, n.pos)) == Ok(Spelled(end, s) + Tail(end, s)))
      && !n.Cut?
    decreases |data| - pos, 0
  {
    hide Ended, Trimmed, Spelled, Lines;
    var s := got + data[pos..];
    if pos == |data| {
      assert s == got;
      if got != [] {
        assert got[|got| - 1] in got;
        SpelledPlain(end, got);
        LinesStep(Stream(end), data, pos);
        assert got + [LF] + [] == got + [LF];
      }
    } else {
      var b := data[pos];
      var more, rest := got + [b], data[pos + 1..];
      assert data[pos..] == [b] + rest && s == more + rest;
      EndedIs(end, got, b);
      if b == Mark(end) {
        SpelledLine(end, got, rest);
        StreamLines(end, data, pos + 1);
        TailAfter(end, more, rest);
        var x, y, z := Trimmed(more, end) + [LF], Spelled(end, rest), Tail(end, rest);
        assert x + (y + z) == x + y + z;
      } else {
        StreamFrom(end, data, pos + 1, more);
      }
    }
  }

  lemma NoneSpelled(end: seq<Byte>)
    ensures Spelled(end, []) + Tail(end, []) == []
  {
  }

  lemma TailAfter(end: seq<Byte>, more: seq<Byte>, rest: seq<Byte>)
    requires more != [] && more[|more| - 1] == Mark(end)
    ensures Tail(end, more + rest) == Tail(end, rest)
  {
  }

  /** A stream, from any record on, copies out as its own bytes with its line ends as line
      feeds, and one more where the last line has none. */
  lemma {:induction false} StreamLines(end: seq<Byte>, data: seq<Byte>, pos: nat)
    requires Possible(Stream(end)) && pos <= |data|
    ensures Lines(Stream(end), data, pos) == Ok(Spelled(end, data[pos..]) + Tail(end, data[pos..]))
    decreases |data| - pos, 1
  {
    hide Spelled, Lines;
    var f := Stream(end);
    LinesStep(f, data, pos);
    if pos == |data| {
      NoneSpelled(end);
    } else {
      StreamFrom(end, data, pos, []);
      assert [] + data[pos..] == data[pos..];
      var n := NextAt(f, data, pos);
      if n.Rec? { assert Line(f, n.data) == n.data + [LF]; }
    }
  }

  lemma {:induction false} SpelledSelf(s: seq<Byte>)
    ensures Spelled([LF], s) == s
  {
    if s != [] {
      assert s == [s[0]] + s[1..];
      SpelledSelf(s[1..]);
    }
  }

  /** A stream of line feeds copies out as it is, with a line feed where the last line has
      none. */
  lemma LfAsItIs(data: seq<Byte>)
    ensures Lines(Stream([LF]), data, 0) == Ok(data + if data == [] || data[|data| - 1] == LF then [] else [LF])
  {
    hide Lines;
    StreamLines([LF], data, 0);
    assert data[0..] == data;
    SpelledSelf(data);
  }

  // ---------------------------------------------------------------------
  // Records of a length
  // ---------------------------------------------------------------------

  function Even(r: seq<Byte>): seq<Byte> { if |r| % 2 == 1 then [0] else [] }

  /** A record in the file: after its length, in either order of bytes, or as long as all
      are. */
  function Stored(f: Format, r: seq<Byte>): seq<Byte>
    requires Storable(f, r)
  {
    if f.Fix? then r + Even(r)
    else (if f.msb then [|r| / 256, |r| % 256] else [|r| % 256, |r| / 256]) + r + Even(r)
  }

  predicate Storable(f: Format, r: seq<Byte>) {
    if f.Fix? then |r| == f.n > 0 else f.Var? && f.vfc <= |r| < 0xffff
  }

  predicate AllStorable(f: Format, rs: seq<seq<Byte>>) {
    (f.Fix? || f.Var?) && Possible(f) && forall r <- rs :: Storable(f, r)
  }

  function StoredAll(f: Format, rs: seq<seq<Byte>>): seq<Byte>
    requires AllStorable(f, rs)
  {
    if rs == [] then [] else Stored(f, rs[0]) + StoredAll(f, rs[1..])
  }

  // The records without their control bytes, as lines.
  function Shown(vfc: nat, rs: seq<seq<Byte>>): seq<Byte>
    requires forall r <- rs :: vfc <= |r|
  {
    if rs == [] then [] else rs[0][vfc..] + [LF] + Shown(vfc, rs[1..])
  }

  lemma StoredBack(f: Format, before: seq<Byte>, r: seq<Byte>, after: seq<Byte>)
    requires Possible(f) && Storable(f, r)
    ensures NextAt(f, before + (Stored(f, r) + after), |before|) == Rec(r, |before| + |Stored(f, r)|)
  {
    hide Stored, Length, NextVar, NextFix;
    var at, e := |before|, Stored(f, r);
    var data := before + (e + after);
    var head := if f.Fix? then 0 else 2;
    StoredParts(f, r);
    assert before + e <= data;
    Middle(data, before, e);
    Within(data, at, |e|, head, |r|);
    assert data[at] == e[0] && (f.Var? ==> data[at + 1] == e[1]);
    if f.Var? { VarAt(f.msb, data, at, r); } else { FixAt(f.n, data, at, r); }
  }

  lemma StoredParts(f: Format, r: seq<Byte>)
    requires Possible(f) && Storable(f, r)
    ensures var e, head := Stored(f, r), if f.Fix? then 0 else 2;
      && |e| == head + |r| + |r| % 2 && |e| > 0 && e[head..head + |r|] == r
      && (f.Var? ==> Length(f.msb, e[0], e[1]) == |r|)
  {
  }

  lemma VarAt(msb: bool, data: seq<Byte>, at: nat, r: seq<Byte>)
    requires at + 2 + |r| + |r| % 2 <= |data| && |r| < 0xffff
    requires Length(msb, data[at], data[at + 1]) == |r| && data[at + 2..at + 2 + |r|] == r
    ensures NextVar(msb, data, at) == Rec(r, at + 2 + |r| + |r| % 2)
  {
    hide Length;
  }

  lemma FixAt(n: nat, data: seq<Byte>, at: nat, r: seq<Byte>)
    requires n > 0 && |r| == n && at + n + n % 2 <= |data| && data[at..at + n] == r
    ensures NextFix(n, data, at) == Rec(r, at + n + n % 2)
  {
  }

  lemma {:induction false} LinesStored(f: Format, before: seq<Byte>, rs: seq<seq<Byte>>)
    requires AllStorable(f, rs)
    ensures (forall r <- rs :: ControlSize(f) <= |r|)
    ensures Lines(f, before + StoredAll(f, rs), |before|) == Ok(Shown(ControlSize(f), rs))
    decreases |rs|
  {
    hide Stored, Lines;
    var data := before + StoredAll(f, rs);
    LinesStep(f, data, |before|);
    if rs == [] {
      assert data == before;
      NothingLeft(f, before);
    } else {
      var e, rest := Stored(f, rs[0]), StoredAll(f, rs[1..]);
      assert rs[0] in rs && forall r <- rs[1..] :: r in rs;
      StoredBack(f, before, rs[0], rest);
      assert before + (e + rest) == (before + e) + rest;
      LinesStored(f, before + e, rs[1..]);
    }
  }

  lemma NothingLeft(f: Format, data: seq<Byte>)
    requires Possible(f)
    ensures NextAt(f, data, |data|) == End
  {
  }

  /** Records written come back as lines, in each of the formats that give a length: without
      the control bytes before each, where there are any, and with nothing else lost. */
  lemma StoredLines(f: Format, rs: seq<seq<Byte>>)
    requires AllStorable(f, rs)
    ensures (forall r <- rs :: ControlSize(f) <= |r|)
    ensures Lines(f, StoredAll(f, rs), 0) == Ok(Shown(ControlSize(f), rs))
  {
    hide Lines;
    LinesStored(f, [], rs);
    assert [] + StoredAll(f, rs) == StoredAll(f, rs);
  }

  /** A length of 0xffff stands for no record: reading goes on at the next block, or at the
      end of the file if that comes first. */
  lemma FillerSkipped(msb: bool, before: seq<Byte>, fill: seq<Byte>, after: seq<Byte>)
    requires |fill| < 512 && (|before| + 2 + |fill|) % 512 == 0
    ensures var data := before + ([255, 255] + fill) + after;
      NextVar(msb, data, |before|) == NextVar(msb, data, |before| + 2 + |fill|)
  {
    hide ToBlock, Length;
    var data := before + ([255, 255] + fill) + after;
    var at := |before| + 2;
    assert data[|before|] == 255 && data[|before| + 1] == 255;
    BlockGap(at, |fill|);
    NoRecord(msb);
  }

  lemma NoRecord(msb: bool)
    ensures Length(msb, 255, 255) == 0xffff
  {
  }

  lemma BlockGap(at: nat, k: nat)
    requires k < 512 && (at + k) % 512 == 0
    ensures ToBlock(at) == k
  {
    var q := (at + k) / 512;
    if k == 0 { DivModUnique(at, q, 0, 512); } else { DivModUnique(at, q - 1, 512 - k, 512); }
  }

  /** So what is before the text of a record does not matter. */
  lemma ControlLeftOut(vfc: nat, msb: bool, controls: seq<seq<Byte>>, texts: seq<seq<Byte>>)
    requires |controls| == |texts|
    requires forall i | 0 <= i < |texts| :: |controls[i]| == vfc && vfc + |texts[i]| < 0xffff
    ensures var rs, f := seq(|texts|, i requires 0 <= i < |texts| => controls[i] + texts[i]), Var(vfc, msb);
      AllStorable(f, rs) && Lines(f, StoredAll(f, rs), 0) == Ok(Joined(texts))
  {
    var rs, f := seq(|texts|, i requires 0 <= i < |texts| => controls[i] + texts[i]), Var(vfc, msb);
    StoredLines(f, rs);
    ShownJoined(vfc, rs, texts);
  }

  lemma {:induction false} ShownJoined(vfc: nat, rs: seq<seq<Byte>>, texts: seq<seq<Byte>>)
    requires |rs| == |texts| && forall i | 0 <= i < |rs| :: vfc <= |rs[i]| && rs[i][vfc..] == texts[i]
    ensures (forall r <- rs :: vfc <= |r|) && Shown(vfc, rs) == Joined(texts)
  {
    if rs != [] { ShownJoined(vfc, rs[1..], texts[1..]); }
  }
}
