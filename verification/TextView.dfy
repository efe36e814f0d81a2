/** A file of records seen as lines of text, with marks from which to read at
    an offset without converting all of it. */
module TextView {
  import opened Records

  const MARK_EVERY := 64 * 1024

  datatype Result<T> = Ok(value: T) | Err

  function ControlSize(f: Format): nat { if f.Var? then f.vfc else 0 }

  /** A record as a line: without its control bytes, with a line feed. */
  function Line(f: Format, r: seq<Byte>): seq<Byte> { r[Min(ControlSize(f), |r|)..] + [LF] }

  /** All the lines from a place, or none if a record is cut short. */
  function Lines(f: Format, data: seq<Byte>, pos: nat): Result<seq<Byte>>
    requires pos <= |data| && Possible(f)
    decreases |data| - pos
  {
    match NextAt(f, data, pos)
    case End => Ok([])
    case Cut => Err
    case Rec(r, next) =>
      var rest := Lines(f, data, next);
      if rest.Ok? then Ok(Line(f, r) + rest.value) else Err
  }

  function Prepend(a: seq<Byte>, r: Result<seq<Byte>>): Result<seq<Byte>> {
    if r.Ok? then Ok(a + r.value) else Err
  }

  lemma PrependTwice(a: seq<Byte>, b: seq<Byte>, r: Result<seq<Byte>>)
    ensures Prepend(a, Prepend(b, r)) == Prepend(a + b, r)
  {
    if r.Ok? { assert a + (b + r.value) == (a + b) + r.value; }
  }

  lemma PrependEnds(a: seq<Byte>, r: Result<seq<Byte>>)
    ensures Prepend([], r) == r && Prepend(a, Ok([])) == Ok(a)
  {
    if r.Ok? { assert [] + r.value == r.value; }
    assert a + [] == a;
  }

  lemma LinesStep(f: Format, data: seq<Byte>, pos: nat)
    requires pos <= |data| && Possible(f)
    ensures var n := NextAt(f, data, pos);
      && (n.End? ==> Lines(f, data, pos) == Ok([])) && (n.Cut? ==> Lines(f, data, pos) == Err)
      && (n.Rec? ==> Lines(f, data, pos) == Prepend(Line(f, n.data), Lines(f, data, n.pos)))
  {
  }

  /** copy_out, to lines. */
  method CopyOut(recs: RecordReader) returns (r: Result<nat>, w: seq<Byte>)
    requires recs.Valid() && recs.pos == 0
    modifies recs, recs.file
    ensures r.Ok? <==> Lines(recs.format, recs.Data(), 0).Ok?
    ensures r.Ok? ==> w == Lines(recs.format, recs.Data(), 0).value && r.value == |w|
  {
    hide Lines, NextAt, Line, Possible;
    w := [];
    var n := 0;
    ghost var data := recs.Data();
    PrependEnds([], Lines(recs.format, data, 0));
    while true
      invariant recs.Valid() && n == |w| && recs.pos <= |data|
      invariant Lines(recs.format, data, 0) == Prepend(w, Lines(recs.format, data, recs.pos))
      decreases |data| - recs.pos
    {
      LinesStep(recs.format, data, recs.pos);
      var next := recs.ReadNext();
      if next.End? {
        PrependEnds(w, Ok([]));
        return Ok(n), w;
      }
      if next.Cut? {
        return Err, w;
      }
      var line := Line(recs.format, next.data);
      PrependTwice(w, line, Lines(recs.format, data, next.pos));
      w, n := w + line, n + |line|;
    }
  }

  // ---------------------------------------------------------------------
  // The view
  // ---------------------------------------------------------------------

  /** A place in the text, and where in the file the record there starts. */
  datatype Mark = Mark(text: nat, raw: nat)

  datatype View = View(size: nat, marks: seq<Mark>)

  /** Reading from the mark gives the rest of the text. */
  ghost predicate Good(f: Format, data: seq<Byte>, text: seq<Byte>, m: Mark)
    requires Possible(f)
  {
    m.text <= |text| && m.raw <= |data| && Lines(f, data, m.raw) == Ok(text[m.text..])
  }

  predicate Rising(marks: seq<Mark>) { forall i, j | 0 <= i < j < |marks| :: marks[i].text < marks[j].text }

  ghost predicate ViewOf(f: Format, data: seq<Byte>, v: View)
    requires Possible(f)
  {
    && Lines(f, data, 0).Ok? && v.size == |Lines(f, data, 0).value| && v.marks != [] && v.marks[0] == Mark(0, 0)
    && Rising(v.marks)
    && (forall i | 0 <= i < |v.marks| :: Good(f, data, Lines(f, data, 0).value, v.marks[i]))
  }

  // A mark where so much of the text comes before.
  ghost predicate Reaches(f: Format, data: seq<Byte>, m: Mark)
    requires Possible(f)
  {
    && m.raw <= |data|
    && (Lines(f, data, 0).Ok? <==> Lines(f, data, m.raw).Ok?)
    && (Lines(f, data, 0).Ok? ==>
          && |Lines(f, data, 0).value| == m.text + |Lines(f, data, m.raw).value|
          && Lines(f, data, 0).value[m.text..] == Lines(f, data, m.raw).value)
  }

  lemma ReachesStart(f: Format, data: seq<Byte>)
    requires Possible(f)
    ensures Reaches(f, data, Mark(0, 0))
  {
  }

  lemma ReachesNext(f: Format, data: seq<Byte>, m: Mark, r: seq<Byte>, next: nat)
    requires Possible(f) && Reaches(f, data, m) && NextAt(f, data, m.raw) == Rec(r, next)
    ensures Reaches(f, data, Mark(m.text + |Line(f, r)|, next))
  {
    hide Line, NextAt;
    LinesStep(f, data, m.raw);
    if Lines(f, data, 0).Ok? {
      var all, line := Lines(f, data, 0).value, Line(f, r);
      assert all[m.text..][|line|..] == all[m.text + |line|..];
    }
  }

  /** text_view: one scan sizes the text and marks records, one every so much of
      it.  It fails just where copying out does. */
  method Scan(recs: RecordReader) returns (r: Result<View>)
    requires recs.Valid() && recs.pos == 0
    modifies recs, recs.file
    ensures r.Ok? <==> Lines(recs.format, recs.Data(), 0).Ok?
    ensures r.Ok? ==> ViewOf(recs.format, recs.Data(), r.value)
  {
    hide Lines, NextAt, Possible, Reaches;
    ghost var data, f := recs.Data(), recs.format;
    var size: nat, marks := 0, [Mark(0, 0)];
    ReachesStart(f, data);
    while true
      invariant recs.Valid() && recs.pos <= |data| && Reaches(f, data, Mark(size, recs.pos))
      invariant marks != [] && marks[0] == Mark(0, 0) && Rising(marks) && marks[|marks| - 1].text <= size
      invariant forall i | 0 <= i < |marks| :: Reaches(f, data, marks[i])
      decreases |data| - recs.pos
    {
      var at := recs.pos;
      LinesStep(f, data, at);
      ReachesOk(f, data, Mark(size, at));
      var next := recs.ReadNext();
      if next.End? {
        ScanDone(f, data, size, at, marks);
        return Ok(View(size, marks));
      }
      if next.Cut? {
        return Err;
      }
      if size - marks[|marks| - 1].text >= MARK_EVERY {
        marks := marks + [Mark(size, at)];
      }
      ReachesNext(f, data, Mark(size, at), next.data, next.pos);
      LineSize(f, next.data);
      size := size + (if |next.data| > ControlSize(recs.format) then |next.data| - ControlSize(recs.format) else 0) + 1;
    }
  }

  lemma LineSize(f: Format, r: seq<Byte>)
    ensures |Line(f, r)| == (if |r| > ControlSize(f) then |r| - ControlSize(f) else 0) + 1
  {
  }

  lemma ReachesOk(f: Format, data: seq<Byte>, m: Mark)
    requires Possible(f) && Reaches(f, data, m) && m.raw <= |data|
    ensures Lines(f, data, m.raw).Ok? <==> Lines(f, data, 0).Ok?
  {
  }

  lemma ScanDone(f: Format, data: seq<Byte>, size: nat, at: nat, marks: seq<Mark>)
    requires Possible(f) && Reaches(f, data, Mark(size, at)) && Lines(f, data, at) == Ok([])
    requires marks != [] && marks[0] == Mark(0, 0) && Rising(marks)
    requires forall i | 0 <= i < |marks| :: Reaches(f, data, marks[i])
    ensures ViewOf(f, data, View(size, marks))
  {
    hide Lines, Rising;
  }

  // ---------------------------------------------------------------------
  // Reading at an offset
  // ---------------------------------------------------------------------

  /** The last mark not past the offset. */
  method FindMark(marks: seq<Mark>, offset: nat) returns (i: nat)
    requires marks != [] && marks[0].text == 0 && Rising(marks)
    ensures i < |marks| && marks[i].text <= offset && (i + 1 < |marks| ==> marks[i + 1].text > offset)
  {
    var lo, hi := 0, |marks|;
    while lo < hi
      invariant 0 <= lo <= hi <= |marks|
      invariant forall k | 0 <= k < lo :: marks[k].text <= offset
      invariant forall k | hi <= k < |marks| :: marks[k].text > offset
    {
      var mid := (lo + hi) / 2;
      if marks[mid].text <= offset {
        lo := mid + 1;
      } else {
        hi := mid;
      }
    }
    i := lo - 1;
  }

  /** The part of a text a buffer at an offset has room for. */
  function Part(text: seq<Byte>, offset: nat, len: nat): seq<Byte> {
    if offset >= |text| then [] else text[offset..Min(offset + len, |text|)]
  }

  // How much of the part is there once the text up to a place has been read.
  function Got(offset: nat, end: nat, pos: nat): nat {
    if pos <= offset || end <= offset then 0 else Min(pos, end) - offset
  }

  method CopyInto(buf: array<Byte>, at: nat, src: seq<Byte>)
    requires at + |src| <= buf.Length
    modifies buf
    ensures buf[..] == old(buf[..at]) + src + old(buf[at + |src|..])
  {
    for i := 0 to |src|
      invariant buf[..] == old(buf[..at]) + src[..i] + old(buf[at + i..])
    {
      buf[at + i] := src[i];
      assert src[..i + 1] == src[..i] + [src[i]];
    }
    assert src[..|src|] == src;
  }

  // The buffer once n bytes of the part are in it.
  ghost predicate Filled(text: seq<Byte>, offset: nat, n: nat, was: seq<Byte>, now: seq<Byte>) {
    n <= |was| == |now| && (n > 0 ==> offset + n <= |text| && now[..n] == text[offset..offset + n])
    && now[n..] == was[n..]
  }

  // More of it.
  lemma FilledMore(text: seq<Byte>, offset: nat, n: nat, was: seq<Byte>, now: seq<Byte>, k: nat, src: seq<Byte>,
                   after: seq<Byte>)
    requires Filled(text, offset, n, was, now) && n <= k <= |was| && offset + k <= |text|
    requires src == text[offset + n..offset + k]
    requires after == now[..n] + src + now[k..]
    ensures Filled(text, offset, k, was, after)
  {
    if n > 0 { assert text[offset..offset + k] == text[offset..offset + n] + text[offset + n..offset + k]; }
    assert now[k..] == now[n..][k - n..] == was[n..][k - n..] == was[k..];
  }

  // The line's part of it.
  method PutLine(buf: array<Byte>, offset: nat, pos: nat, line: seq<Byte>, before: nat, ghost text: seq<Byte>,
                 ghost was: seq<Byte>)
    returns (n: nat)
    requires pos + |line| <= |text| && line == text[pos..pos + |line|] && pos < offset + buf.Length
    requires |was| == buf.Length
    requires before == Got(offset, offset + buf.Length, pos) && Filled(text, offset, before, was, buf[..])
    modifies buf
    ensures n == Got(offset, offset + buf.Length, pos + |line|) && Filled(text, offset, n, was, buf[..])
  {
    hide Filled;
    var end := offset + buf.Length;
    n := before;
    var from, to := if pos > offset then pos else offset, Min(pos + |line|, end);
    if from < to {
      var src := line[from - pos..to - pos];
      LinePart(text, pos, line, from, to);
      ghost var now := buf[..];
      CopyInto(buf, from - offset, src);
      FilledMore(text, offset, from - offset, was, now, to - offset, src, buf[..]);
      n := to - offset;
    }
  }

  /** read_text: exactly the bytes of the text at the offset, as many as there are
      and the buffer has room for. */
  method ReadText(file: FileReader, f: Format, view: View, offset: nat, buf: array<Byte>) returns (n: nat)
    requires file.Valid() && Possible(f) && ViewOf(f, file.Data(), view)
    modifies file, buf
    ensures n == |Part(Lines(f, file.Data(), 0).value, offset, buf.Length)|
    ensures buf[..n] == Part(Lines(f, file.Data(), 0).value, offset, buf.Length) && buf[n..] == old(buf[n..])
  {
    hide Lines, NextAt, Possible, Line, Filled;
    ghost var data, was := file.Data(), buf[..];
    ghost var text := Lines(f, data, 0).value;
    var i := FindMark(view.marks, offset);
    var mark := view.marks[i];
    var pos: nat := mark.text;
    assert Good(f, data, text, mark);
    file.SeekTo(mark.raw);
    var recs := new RecordReader(file, f);
    var end := offset + buf.Length;
    n := 0;
    NoneFilled(text, offset, was);
    while pos < end
      invariant recs.Valid() && recs.file == file && recs.format == f && recs.pos <= |data|
      invariant pos <= |text| && Lines(f, data, recs.pos) == Ok(text[pos..])
      invariant n == Got(offset, end, pos) && Filled(text, offset, n, was, buf[..])
      decreases |data| - recs.pos
    {
      LinesStep(f, data, recs.pos);
      var next := recs.ReadNext();
      if !next.Rec? {
        break;
      }
      var line := Line(f, next.data);
      OneLine(text, pos, line, Lines(f, data, next.pos));
      n := PutLine(buf, offset, pos, line, n, text, was);
      pos := pos + |line|;
    }
    PartGot(text, offset, buf.Length, pos, n, was, buf[..]);
  }

  lemma NoneFilled(text: seq<Byte>, offset: nat, was: seq<Byte>)
    ensures Filled(text, offset, 0, was, was)
  {
  }

  // The next line of the text.
  lemma OneLine(text: seq<Byte>, pos: nat, line: seq<Byte>, rest: Result<seq<Byte>>)
    requires pos <= |text| && Ok(text[pos..]) == Prepend(line, rest)
    ensures rest.Ok? && pos + |line| <= |text| && line == text[pos..pos + |line|] && rest == Ok(text[pos + |line|..])
  {
    assert text[pos..][..|line|] == line && text[pos..][|line|..] == rest.value;
  }

  lemma LinePart(text: seq<Byte>, pos: nat, line: seq<Byte>, from: nat, to: nat)
    requires pos + |line| <= |text| && line == text[pos..pos + |line|] && pos <= from <= to <= pos + |line|
    ensures line[from - pos..to - pos] == text[from..to]
  {
    Within(text, pos, |line|, from - pos, to - from);
  }

  // All that there is, or all there is room for.
  lemma PartGot(text: seq<Byte>, offset: nat, len: nat, pos: nat, n: nat, was: seq<Byte>, now: seq<Byte>)
    requires pos <= |text| && (pos >= offset + len || pos == |text|) && n == Got(offset, offset + len, pos)
    requires Filled(text, offset, n, was, now) && len == |was|
    ensures n == |Part(text, offset, len)| && now[..n] == Part(text, offset, len) && now[n..] == was[n..]
  {
  }

  // ---------------------------------------------------------------------
  // Lines in and out again
  // ---------------------------------------------------------------------

  /** Records as lines. */
  function Joined(rs: seq<seq<Byte>>): seq<Byte> {
    if rs == [] then [] else rs[0] + [LF] + Joined(rs[1..])
  }

  const VAR := Var(0, false)

  lemma {:induction false} WrittenFrom(rs: seq<seq<Byte>>, k: nat)
    requires Fit(rs) && k <= |rs|
    ensures Fit(rs[..k]) && |EncodedAll(rs[..k])| <= |EncodedAll(rs)|
    ensures Lines(VAR, EncodedAll(rs), |EncodedAll(rs[..k])|) == Ok(Joined(rs[k..]))
    decreases |rs| - k
  {
    hide EncodedAll, Fit;
    RecordBack(rs, k);
    LinesStep(VAR, EncodedAll(rs), |EncodedAll(rs[..k])|);
    if k < |rs| {
      WrittenFrom(rs, k + 1);
      assert rs[k..][1..] == rs[k + 1..] && rs[k][0..] == rs[k];
    }
  }

  /** What is written as records reads back as those lines. */
  lemma WrittenBack(rs: seq<seq<Byte>>)
    requires Fit(rs)
    ensures Lines(VAR, EncodedAll(rs), 0) == Ok(Joined(rs))
  {
    assert rs[..0] == [] && rs[0..] == rs;
    WrittenFrom(rs, 0);
  }

  lemma {:induction false} JoinedMore(rs: seq<seq<Byte>>, r: seq<Byte>)
    ensures Joined(rs + [r]) == Joined(rs) + (r + [LF])
  {
    if rs == [] {
      assert [r][1..] == [] && rs + [r] == [r] && r + [LF] + [] == [] + (r + [LF]);
    } else {
      JoinedMore(rs[1..], r);
      assert (rs + [r])[1..] == rs[1..] + [r];
      assert rs[0] + [LF] + (Joined(rs[1..]) + (r + [LF])) == rs[0] + [LF] + Joined(rs[1..]) + (r + [LF]);
    }
  }

  // No carriage return before the end of a line.
  predicate Plain(text: seq<Byte>) { forall i | 0 <= i < |text| - 1 :: !(text[i] == CR && text[i + 1] == LF) }

  lemma PlainBefore(text: seq<Byte>)
    requires Plain(text) && text != []
    ensures Plain(text[..|text| - 1])
    ensures |text| > 1 && text[|text| - 1] == LF ==> text[|text| - 2] != CR
  {
    var before := text[..|text| - 1];
    forall i | 0 <= i < |before| - 1
      ensures !(before[i] == CR && before[i + 1] == LF)
    {
      assert !(text[i] == CR && text[i + 1] == LF);
    }
    if |text| > 1 {
      var i := |text| - 2;
      assert !(text[i] == CR && text[i + 1] == LF);
    }
  }

  lemma {:induction false} SplitBack(text: seq<Byte>)
    requires Plain(text)
    ensures Joined(Split(text).0) + Split(text).1 == text
    ensures Split(text).1 != [] ==> text != [] && Split(text).1[|Split(text).1| - 1] == text[|text| - 1]
  {
    hide Plain, Joined;
    if text == [] {
      NothingJoined();
    } else {
      var l := |text| - 1;
      PlainBefore(text);
      SplitBack(text[..l]);
      if text[l] == LF { LineBack(text[..l]); } else { ByteBack(text[..l], text[l]); }
      assert text == text[..l] + [text[l]];
    }
  }

  lemma NothingJoined()
    ensures Joined([]) + [] == []
  {
  }

  lemma LineBack(before: seq<Byte>)
    requires var (lines, rest) := Split(before);
      Joined(lines) + rest == before && (rest != [] ==> rest[|rest| - 1] != CR)
    ensures var (lines, rest) := Split(before); Joined(lines + [Stripped(rest)]) + [] == before + [LF]
  {
    hide Joined, Split;
    var (lines, rest) := Split(before);
    JoinedMore(lines, rest);
    JoinedLine(Joined(lines), rest);
  }

  lemma JoinedLine(a: seq<Byte>, b: seq<Byte>)
    ensures a + (b + [LF]) + [] == a + b + [LF]
  {
  }

  lemma ByteBack(before: seq<Byte>, c: Byte)
    requires Joined(Split(before).0) + Split(before).1 == before
    ensures Joined(Split(before).0) + (Split(before).1 + [c]) == before + [c]
  {
    hide Joined, Split;
  }

  // Each carriage return before a line feed is a byte less.
  lemma {:induction false} SplitShorter(text: seq<Byte>)
    ensures |Joined(Split(text).0)| + |Split(text).1| <= |text|
    ensures !Plain(text) ==> |Joined(Split(text).0)| + |Split(text).1| < |text|
    ensures text != [] && text[|text| - 1] != LF ==>
      Split(text).1 != [] && Split(text).1[|Split(text).1| - 1] == text[|text| - 1]
    ensures text == [] || text[|text| - 1] == LF ==> Split(text).1 == []
  {
    hide Joined, Plain;
    if text == [] {
      NothingJoined();
      NothingPlain();
    } else {
      var l := |text| - 1;
      SplitShorter(text[..l]);
      if !Plain(text) { PlainAfter(text); }
      var (lines, rest) := Split(text[..l]);
      if text[l] == LF { JoinedMore(lines, Stripped(rest)); }
    }
  }

  lemma NothingPlain()
    ensures Plain([])
  {
  }

  lemma PlainAfter(text: seq<Byte>)
    requires text != [] && !Plain(text)
    ensures !Plain(text[..|text| - 1]) || (|text| > 1 && text[|text| - 1] == LF && text[|text| - 2] == CR)
  {
    var before := text[..|text| - 1];
    var i :| 0 <= i < |text| - 1 && text[i] == CR && text[i + 1] == LF;
    if i < |text| - 2 { assert before[i] == CR && before[i + 1] == LF; }
  }

  lemma {:induction false} JoinedEnds(rs: seq<seq<Byte>>)
    ensures rs != [] ==> Joined(rs) != [] && Joined(rs)[|Joined(rs)| - 1] == LF
  {
    if |rs| > 1 { JoinedEnds(rs[1..]); }
  }

  /** A text copied in as records and out again as lines is as it was exactly when it is
      whole lines, ended by line feeds alone. */
  lemma InAndOut(text: seq<Byte>)
    requires Fit(Finished(text))
    ensures Lines(VAR, EncodedAll(Finished(text)), 0) == Ok(text) <==>
      Plain(text) && (text == [] || text[|text| - 1] == LF)
  {
    hide Lines, EncodedAll, Fit, Joined, Split;
    WrittenBack(Finished(text));
    if Plain(text) {
      SplitBack(text);
      assert Joined(Split(text).0) + [] == Joined(Split(text).0);
    }
    SplitShorter(text);
    JoinedEnds(Finished(text));
    NothingJoined();
  }

  /** A line that is not ended comes out ended. */
  lemma LineFeedAdded()
    ensures Lines(VAR, EncodedAll(Finished([0x41])), 0) == Ok([0x41, LF])
  {
    hide Lines, EncodedAll;
    var text: seq<Byte> := [0x41];
    assert [] + text == text && Split([]) == ([], []);
    SplitMore([], text);
    assert Split(text) == ([], [] + text);
    assert Finished(text) == [text];
    assert [text][1..] == [];
    WrittenBack([text]);
    assert text + [LF] + [] == [0x41, LF];
  }
}
