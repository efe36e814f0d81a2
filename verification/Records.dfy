/** The records of a sequential file: reading them from a file's blocks, and
    writing lines as records. */
module Records {

  type Byte = x: int | 0 <= x < 256

  const BLOCK := 512
  const CHUNK := 64 // blocks in a transfer
  const LF: Byte := 10
  const CR: Byte := 13

  datatype Option<T> = None | Some(value: T)

  datatype Format = Var(vfc: nat, msb: bool) | Fix(n: nat) | Stream(end: seq<Byte>)

  /** The formats a file's attributes can give. */
  predicate Possible(f: Format) {
    match f
    case Var(_, _) => true
    case Fix(n) => n > 0
    case Stream(end) => end == [LF] || end == [CR] || end == [CR, LF]
  }

  /** What reading at a place comes to: a record and the place after it, the end
      of the file, or a record the end of file cuts short. */
  datatype Next = End | Cut | Rec(data: seq<Byte>, pos: nat)

  function Min(a: nat, b: nat): nat { if a < b then a else b }

  function Past(data: seq<Byte>, pos: nat, n: nat): nat { Min(pos + n, |data|) }

  function Padded(data: seq<Byte>, pos: nat, n: nat): nat { if n % 2 == 1 then Past(data, pos, 1) else pos }

  function Length(msb: bool, a: Byte, b: Byte): nat { if msb then a * 256 + b else b * 256 + a }

  // How far it is to the next block.
  function ToBlock(pos: nat): nat { (BLOCK - pos % BLOCK) % BLOCK }

  function NextVar(msb: bool, data: seq<Byte>, pos: nat): (r: Next)
    requires pos <= |data|
    ensures r.Rec? ==> pos < r.pos <= |data|
    decreases |data| - pos
  {
    if pos == |data| then End
    else if pos + 1 == |data| then Cut
    else
      var len, at := Length(msb, data[pos], data[pos + 1]), pos + 2;
      if len == 0xffff then NextVar(msb, data, Past(data, at, ToBlock(at)))
      else if at + len > |data| then Cut
      else Rec(data[at..at + len], Padded(data, at + len, len))
  }

  function NextFix(n: nat, data: seq<Byte>, pos: nat): (r: Next)
    requires pos <= |data| && n > 0
    ensures r.Rec? ==> pos < r.pos <= |data|
  {
    if pos == |data| then End
    else if pos + n > |data| then Cut
    else Rec(data[pos..pos + n], Padded(data, pos + n, n))
  }

  predicate EndsWith(s: seq<Byte>, end: seq<Byte>) { |end| <= |s| && s[|s| - |end|..] == end }

  // The record ends here; a lone line feed will do for the pair.
  predicate Ended(s: seq<Byte>, end: seq<Byte>) { EndsWith(s, end) || (end == [CR, LF] && EndsWith(s, [LF])) }

  function Trimmed(s: seq<Byte>, end: seq<Byte>): seq<Byte>
    requires Ended(s, end)
  {
    if EndsWith(s, end) then s[..|s| - |end|] else s[..|s| - 1]
  }

  function NextStream(end: seq<Byte>, data: seq<Byte>, pos: nat, got: seq<Byte>): (r: Next)
    requires pos <= |data|
    ensures r.Rec? ==> pos <= r.pos <= |data| && (got == [] ==> pos < r.pos)
    decreases |data| - pos
  {
    if pos == |data| then if got == [] then End else Rec(got, pos)
    else
      var more := got + [data[pos]];
      if Ended(more, end) then Rec(Trimmed(more, end), pos + 1) else NextStream(end, data, pos + 1, more)
  }

  /** The record at a place. */
  function NextAt(f: Format, data: seq<Byte>, pos: nat): (r: Next)
    requires pos <= |data| && Possible(f)
    ensures r.Rec? ==> pos < r.pos <= |data|
  {
    match f
    case Var(_, msb) => NextVar(msb, data, pos)
    case Fix(n) => NextFix(n, data, pos)
    case Stream(end) => NextStream(end, data, pos, [])
  }

  // ---------------------------------------------------------------------
  // Reading a file's bytes
  // ---------------------------------------------------------------------

  /** A file's contents, of which it has a few blocks at a time. */
  class FileReader {
    const blocks: seq<Byte>
    const eof: nat
    var pos: nat
    var buf: seq<Byte>
    var bufAt: nat

    /** What is buffered is what the file has there. */
    ghost predicate Valid()
      reads this
    {
      && eof <= |blocks| && |blocks| % BLOCK == 0 && pos <= eof
      && bufAt + |buf| <= |blocks| && buf == blocks[bufAt..bufAt + |buf|]
    }

    function Data(): seq<Byte>
      requires eof <= |blocks|
    {
      blocks[..eof]
    }

    constructor (bytes: seq<Byte>, end: nat)
      requires end <= |bytes| && |bytes| % BLOCK == 0
      ensures Valid() && blocks == bytes && eof == end && pos == 0
    {
      blocks, eof, pos, buf, bufAt := bytes, end, 0, [], 0;
    }

    /** read: as many of the next bytes as there are, up to n. */
    method Read(n: nat) returns (out: seq<Byte>)
      requires Valid()
      modifies this
      ensures Valid() && |out| <= n && pos == old(pos) + |out| && out == Data()[old(pos)..pos]
      ensures out == [] <==> n == 0 || old(pos) == eof
    {
      if pos >= eof || n == 0 {
        out := [];
        return;
      }
      if pos < bufAt || pos >= bufAt + |buf| {
        Fill();
      }
      var from := pos - bufAt;
      var k := Min(Min(n, |buf| - from), eof - pos);
      out := buf[from..from + k];
      Within(blocks, bufAt, |buf|, from, k);
      PartOf(blocks, eof, pos, pos + k);
      pos := pos + k;
    }

    // The blocks from the one the position is in.
    method Fill()
      requires Valid() && pos < eof
      modifies this`buf, this`bufAt
      ensures Valid() && bufAt <= pos < bufAt + |buf|
    {
      var first := pos / BLOCK;
      var left := (eof - first * BLOCK + BLOCK - 1) / BLOCK;
      var count := Min(left, CHUNK);
      assert first * BLOCK <= pos < first * BLOCK + BLOCK;
      assert left >= 1 && left * BLOCK <= eof - first * BLOCK + BLOCK - 1;
      assert first * BLOCK + left * BLOCK <= |blocks|;
      buf := blocks[first * BLOCK..first * BLOCK + count * BLOCK];
      bufAt := first * BLOCK;
    }

    method SeekTo(at: nat)
      requires Valid()
      modifies this
      ensures Valid() && pos == Min(at, eof)
    {
      pos := Min(at, eof);
    }
  }

  lemma PartOf(s: seq<Byte>, n: nat, a: nat, b: nat)
    requires a <= b <= n <= |s|
    ensures s[..n][a..b] == s[a..b]
  {
    var x, y := s[..n][a..b], s[a..b];
    forall i | 0 <= i < b - a
      ensures x[i] == y[i]
    {
    }
  }

  lemma Within(s: seq<Byte>, at: nat, len: nat, from: nat, k: nat)
    requires at + len <= |s| && from + k <= len
    ensures s[at..at + len][from..from + k] == s[at + from..at + from + k]
  {
    var a, b := s[at..at + len][from..from + k], s[at + from..at + from + k];
    forall i | 0 <= i < k
      ensures a[i] == b[i]
    {
    }
  }

  // ---------------------------------------------------------------------
  // Reading its records
  // ---------------------------------------------------------------------

  class RecordReader {
    const file: FileReader
    const format: Format
    var pos: nat

    ghost predicate Valid()
      reads this, file
    {
      file.Valid() && file.pos == pos && Possible(format)
    }

    function Data(): seq<Byte>
      requires file.eof <= |file.blocks|
    {
      file.Data()
    }

    /** at: from a place where the file stands. */
    constructor (f: FileReader, how: Format)
      requires f.Valid() && Possible(how)
      ensures Valid() && file == f && format == how && pos == f.pos
    {
      file, format, pos := f, how, f.pos;
    }

    method NextByte() returns (b: Option<Byte>)
      requires Valid()
      modifies this, file
      ensures Valid()
      ensures b == if old(pos) < |Data()| then Some(Data()[old(pos)]) else None
      ensures pos == Past(Data(), old(pos), 1)
    {
      var got := file.Read(1);
      if got == [] {
        b := None;
      } else {
        pos := pos + 1;
        b := Some(got[0]);
      }
    }

    /** exact: the next n bytes, or none if there are fewer. */
    method Exact(n: nat) returns (r: Option<seq<Byte>>)
      requires Valid()
      modifies this, file
      ensures r.Some? <==> old(pos) + n <= |Data()|
      ensures r.Some? ==> Valid() && pos == old(pos) + n && r.value == Data()[old(pos)..pos]
    {
      var got: seq<Byte> := [];
      while |got| < n
        invariant |got| <= n && file.Valid() && pos == old(pos) && file.pos == pos + |got|
        invariant got == Data()[pos..pos + |got|]
      {
        var more := file.Read(n - |got|);
        if more == [] {
          return None;
        }
        assert Data()[pos..pos + |got|] + Data()[pos + |got|..pos + |got| + |more|] ==
          Data()[pos..pos + |got| + |more|];
        got := got + more;
      }
      pos := pos + n;
      r := Some(got);
    }

    method Skip(n: nat)
      requires Valid()
      modifies this, file
      ensures Valid() && pos == Past(Data(), old(pos), n)
    {
      for i := 0 to n
        invariant Valid() && pos == Past(Data(), old(pos), i)
      {
        var b := NextByte();
        if b.None? {
          return;
        }
      }
    }

    // A record's length: none at the end of the file, or where it is cut short.
    method ReadLength() returns (r: Next, len: nat)
      requires Valid() && format.Var?
      modifies this, file
      ensures r.End? <==> old(pos) == |Data()|
      ensures r.Cut? <==> old(pos) + 1 == |Data()|
      ensures r.Rec? ==>
        Valid() && pos == old(pos) + 2 && len == Length(format.msb, Data()[old(pos)], Data()[old(pos) + 1])
    {
      hide Past, Length;
      len := 0;
      PastIs(Data(), pos, 1);
      var first := NextByte();
      if first.None? {
        r := End;
        return;
      }
      PastIs(Data(), pos, 1);
      var second := NextByte();
      if second.None? {
        r := Cut;
        return;
      }
      r, len := Rec([], pos), Length(format.msb, first.value, second.value);
    }

    // What follows the length.
    method ReadBody(len: nat) returns (r: Next)
      requires Valid()
      modifies this, file
      ensures r == if old(pos) + len > |Data()| then Cut
        else Rec(Data()[old(pos)..old(pos) + len], Padded(Data(), old(pos) + len, len))
      ensures r.Rec? ==> Valid() && pos == r.pos
    {
      hide Past;
      var got := Exact(len);
      if got.None? {
        return Cut;
      }
      if len % 2 == 1 {
        Skip(1);
      }
      r := Rec(got.value, pos);
    }

    method ReadVar() returns (r: Next)
      requires Valid() && format.Var?
      modifies this, file
      ensures r == NextVar(format.msb, Data(), old(pos))
      ensures r.Rec? ==> Valid() && pos == r.pos
    {
      hide Past, Length, ToBlock, Padded;
      ghost var data := Data();
      while true
        invariant Valid() && NextVar(format.msb, data, old(pos)) == NextVar(format.msb, data, pos)
        decreases |data| - pos
      {
        var len: nat;
        r, len := ReadLength();
        if !r.Rec? {
          return;
        }
        if len != 0xffff {
          r := ReadBody(len);
          return;
        }
        PastIs(data, pos, ToBlock(pos));
        Skip(ToBlock(pos));
      }
    }

    method ReadFix() returns (r: Next)
      requires Valid() && format.Fix?
      modifies this, file
      ensures r == NextFix(format.n, Data(), old(pos))
      ensures r.Rec? ==> Valid() && pos == r.pos
    {
      hide Past;
      ghost var data := Data();
      PastIs(data, pos, 1);
      var first := NextByte();
      if first.None? {
        return End;
      }
      var got := Exact(format.n - 1);
      if got.None? {
        return Cut;
      }
      FirstAnd(data, old(pos), format.n);
      if format.n % 2 == 1 {
        Skip(1);
      }
      r := Rec([first.value] + got.value, pos);
    }

    method ReadStream() returns (r: Next)
      requires Valid() && format.Stream?
      modifies this, file
      ensures r == NextStream(format.end, Data(), old(pos), [])
      ensures r.Rec? ==> Valid() && pos == r.pos
    {
      hide Past, Ended, Trimmed;
      ghost var data := Data();
      var got: seq<Byte> := [];
      while true
        invariant Valid() && NextStream(format.end, data, old(pos), []) == NextStream(format.end, data, pos, got)
        decreases |data| - pos
      {
        PastIs(data, pos, 1);
        var b := NextByte();
        if b.None? {
          return if got == [] then End else Rec(got, pos);
        }
        got := got + [b.value];
        if Ended(got, format.end) {
          return Rec(Trimmed(got, format.end), pos);
        }
      }
    }

    /** next: the record at the position, which then is the one after it. */
    method ReadNext() returns (r: Next)
      requires Valid()
      modifies this, file
      ensures r == NextAt(format, Data(), old(pos))
      ensures r.Rec? ==> Valid() && pos == r.pos
    {
      match format {
        case Var(_, _) => r := ReadVar();
        case Fix(_) => r := ReadFix();
        case Stream(_) => r := ReadStream();
      }
    }
  }

  lemma FirstAnd(data: seq<Byte>, pos: nat, n: nat)
    requires n > 0 && pos + n <= |data|
    ensures [data[pos]] + data[pos + 1..pos + n] == data[pos..pos + n]
  {
  }

  lemma PastIs(data: seq<Byte>, pos: nat, n: nat)
    requires pos <= |data|
    ensures pos <= Past(data, pos, n) <= |data| && (n == 1 && pos < |data| ==> Past(data, pos, n) == pos + 1)
  {
  }

  // ---------------------------------------------------------------------
  // Writing lines as records
  // ---------------------------------------------------------------------

  const LONGEST := 0x8000

  /** A line without the carriage return it may end in. */
  function Stripped(line: seq<Byte>): seq<Byte> {
    if line != [] && line[|line| - 1] == CR then line[..|line| - 1] else line
  }

  /** A record as it is written: its length, its bytes, and a byte to make them
      even. */
  function Encoded(r: seq<Byte>): seq<Byte>
    requires |r| < LONGEST
  {
    [|r| % 256, |r| / 256] + r + (if |r| % 2 == 1 then [0] else [])
  }

  predicate Fit(rs: seq<seq<Byte>>) { forall i | 0 <= i < |rs| :: |rs[i]| < LONGEST }

  function EncodedAll(rs: seq<seq<Byte>>): seq<Byte>
    requires Fit(rs)
  {
    if rs == [] then [] else EncodedAll(rs[..|rs| - 1]) + Encoded(rs[|rs| - 1])
  }

  /** The complete lines of a text, as records, and what is after the last. */
  function Split(text: seq<Byte>): (r: (seq<seq<Byte>>, seq<Byte>)) {
    if text == [] then ([], [])
    else
      var (lines, rest) := Split(text[..|text| - 1]);
      if text[|text| - 1] == LF then (lines + [Stripped(rest)], []) else (lines, rest + [text[|text| - 1]])
  }

  // Text without a line feed goes to the last line.
  lemma {:induction false} SplitMore(text: seq<Byte>, more: seq<Byte>)
    requires LF !in more
    ensures Split(text + more) == (Split(text).0, Split(text).1 + more)
    decreases |more|
  {
    if more == [] {
      assert text + more == text && Split(text).1 + more == Split(text).1;
    } else {
      var l := |more| - 1;
      assert more == more[..l] + [more[l]] && more[l] in more;
      SplitMore(text, more[..l]);
      assert (text + more)[..|text| + l] == text + more[..l];
      assert Split(text).1 + more[..l] + [more[l]] == Split(text).1 + more;
    }
  }

  lemma SplitLine(text: seq<Byte>, line: seq<Byte>)
    requires LF !in line
    ensures Split(text + line + [LF]) == (Split(text).0 + [Stripped(Split(text).1 + line)], [])
  {
    SplitMore(text, line);
    assert (text + line + [LF])[..|text| + |line|] == text + line;
  }

  lemma EncodedMore(rs: seq<seq<Byte>>, r: seq<Byte>)
    requires Fit(rs) && |r| < LONGEST
    ensures Fit(rs + [r]) && EncodedAll(rs + [r]) == EncodedAll(rs) + Encoded(r)
  {
    assert (rs + [r])[..|rs|] == rs;
  }

  class VarWriter {
    var out: seq<Byte>
    var partial: seq<Byte>
    var longest: nat
    ghost var text: seq<Byte> // all of it so far

    /** The lines complete are written, each as a record, and the rest kept. */
    ghost predicate Valid()
      reads this
    {
      && partial == Split(text).1 && Fit(Split(text).0) && out == EncodedAll(Split(text).0)
      && (forall i | 0 <= i < |Split(text).0| :: |Split(text).0[i]| <= longest)
    }

    constructor ()
      ensures Valid() && text == [] && out == []
    {
      out, partial, longest, text := [], [], 0, [];
    }

    // A line as a record, unless it is too long for one.
    method Record(line: seq<Byte>) returns (ok: bool)
      modifies this`out, this`longest
      ensures ok <==> |Stripped(line)| < LONGEST
      ensures ok ==> out == old(out) + Encoded(Stripped(line))
      ensures ok ==> longest == if |Stripped(line)| > old(longest) then |Stripped(line)| else old(longest)
    {
      var r := Stripped(line);
      if |r| >= LONGEST {
        return false;
      }
      if |r| > longest {
        longest := |r|;
      }
      out := out + Encoded(r);
      return true;
    }

    // The end of a line comes.
    method EndLine(line: seq<Byte>) returns (ok: bool)
      requires Valid() && LF !in line
      modifies this
      ensures ok ==> Valid() && text == old(text) + line + [LF]
      ensures !ok ==> var now := Split(old(text) + line + [LF]).0; now != [] && |now[|now| - 1]| >= LONGEST
    {
      hide Encoded, EncodedAll, Stripped, Split;
      SplitLine(text, line);
      ghost var lines := Split(text).0;
      ghost var was := partial;
      ok := Record(partial + line);
      if ok {
        EncodedMore(lines, Stripped(was + line));
        partial := [];
        text := text + line + [LF];
      }
    }

    method Keep(line: seq<Byte>)
      requires Valid() && LF !in line
      modifies this
      ensures Valid() && text == old(text) + line
    {
      hide Encoded, EncodedAll, Stripped, Split;
      SplitMore(text, line);
      partial := partial + line;
      text := text + line;
    }

    /** write: however the text comes, the records are those of all of it. */
    method Write(buf: seq<Byte>) returns (ok: bool)
      requires Valid()
      modifies this
      ensures ok ==> Valid() && text == old(text) + buf
      ensures Fit(Split(old(text) + buf).0) ==> ok
    {
      hide Valid, Split, Fit;
      var i := 0;
      assert text == text + buf[..0];
      while true
        invariant 0 <= i <= |buf| && Valid() && text == old(text) + buf[..i]
        decreases |buf| - i
      {
        var j := NextLf(buf, i);
        ghost var was := text;
        if j == |buf| {
          Keep(buf[i..]);
          assert old(text) + buf[..i] + buf[i..] == old(text) + buf;
          return true;
        }
        Rejoin(old(text), buf, i, j);
        ok := EndLine(buf[i..j]);
        if !ok {
          TooLong(was + buf[i..j] + [LF], buf[j + 1..]);
          return;
        }
        i := j + 1;
      }
    }

    /** finish: a line that does not end is a record too. */
    method Finish() returns (ok: bool)
      requires Valid()
      modifies this
      ensures ok <==> Fit(Finished(old(text)))
      ensures ok ==> out == EncodedAll(Finished(old(text)))
    {
      hide Encoded, EncodedAll, Stripped;
      if partial == [] {
        return true;
      }
      ghost var lines := Split(text).0;
      ok := Record(partial);
      if ok {
        EncodedMore(lines, Stripped(partial));
      } else {
        assert Finished(text)[|lines|] == Stripped(partial);
      }
    }
  }

  /** All of a text's lines as records. */
  function Finished(text: seq<Byte>): seq<seq<Byte>> {
    var (lines, rest) := Split(text);
    if rest == [] then lines else lines + [Stripped(rest)]
  }

  method NextLf(buf: seq<Byte>, i: nat) returns (j: nat)
    requires i <= |buf|
    ensures i <= j <= |buf| && LF !in buf[i..j] && (j < |buf| ==> buf[j] == LF)
  {
    j := i;
    while j < |buf| && buf[j] != LF
      invariant i <= j <= |buf| && LF !in buf[i..j]
    {
      assert buf[i..j + 1] == buf[i..j] + [buf[j]];
      j := j + 1;
    }
  }

  lemma Rejoin(text: seq<Byte>, buf: seq<Byte>, i: nat, j: nat)
    requires i <= j < |buf| && buf[j] == LF
    ensures text + buf[..i] + buf[i..j] + [LF] == text + buf[..j + 1]
    ensures text + buf[..i] + buf[i..j] + [LF] + buf[j + 1..] == text + buf
  {
  }

  lemma TooLong(text: seq<Byte>, more: seq<Byte>)
    requires var lines := Split(text).0; lines != [] && |lines[|lines| - 1]| >= LONGEST
    ensures !Fit(Split(text + more).0)
  {
    hide Split;
    SplitKeeps(text, more, |Split(text).0| - 1);
  }

  // The lines there are stay as more come.
  lemma {:induction false} SplitKeeps(text: seq<Byte>, more: seq<Byte>, k: nat)
    requires k < |Split(text).0|
    ensures k < |Split(text + more).0| && Split(text + more).0[k] == Split(text).0[k]
    decreases |more|
  {
    if more == [] {
      assert text + more == text;
    } else {
      var l := |more| - 1;
      SplitKeeps(text, more[..l], k);
      assert (text + more)[..|text| + l] == text + more[..l];
    }
  }

  // ---------------------------------------------------------------------
  // Reading back what was written
  // ---------------------------------------------------------------------

  lemma {:induction false} EncodedSplits(rs: seq<seq<Byte>>, k: nat)
    requires Fit(rs) && k < |rs|
    ensures Fit(rs[..k]) && Fit(rs[..k + 1])
    ensures EncodedAll(rs[..k + 1]) == EncodedAll(rs[..k]) + Encoded(rs[k])
    ensures EncodedAll(rs[..k + 1]) <= EncodedAll(rs)
  {
    hide Encoded;
    assert rs[..k + 1][..k] == rs[..k];
    EncodedPrefix(rs, k + 1);
  }

  lemma {:induction false} EncodedPrefix(rs: seq<seq<Byte>>, k: nat)
    requires Fit(rs) && k <= |rs|
    ensures Fit(rs[..k]) && EncodedAll(rs[..k]) <= EncodedAll(rs)
    decreases |rs|
  {
    hide Encoded;
    if k == |rs| {
      assert rs[..k] == rs;
    } else {
      EncodedPrefix(rs[..|rs| - 1], k);
      assert rs[..|rs| - 1][..k] == rs[..k];
    }
  }

  /** Each record is where those before it end. */
  lemma RecordBack(rs: seq<seq<Byte>>, k: nat)
    requires Fit(rs) && k <= |rs|
    ensures Fit(rs[..k]) && |EncodedAll(rs[..k])| <= |EncodedAll(rs)|
    ensures k == |rs| ==> NextVar(false, EncodedAll(rs), |EncodedAll(rs[..k])|) == End
    ensures k < |rs| ==>
      Fit(rs[..k + 1]) && NextVar(false, EncodedAll(rs), |EncodedAll(rs[..k])|) == Rec(rs[k], |EncodedAll(rs[..k + 1])|)
  {
    hide EncodedAll;
    EncodedPrefix(rs, k);
    if k == |rs| {
      assert rs[..k] == rs;
    } else {
      EncodedSplits(rs, k);
      OneBack(EncodedAll(rs), EncodedAll(rs[..k]), rs[k]);
    }
  }

  // Where an encoded record's parts are.
  lemma EncodedParts(r: seq<Byte>)
    requires |r| < LONGEST
    ensures var e := Encoded(r);
      |e| == 2 + |r| + |r| % 2 && Length(false, e[0], e[1]) == |r| && e[2..2 + |r|] == r
  {
  }

  lemma OneBack(data: seq<Byte>, before: seq<Byte>, r: seq<Byte>)
    requires |r| < LONGEST && before + Encoded(r) <= data
    ensures NextVar(false, data, |before|) == Rec(r, |before| + |Encoded(r)|)
  {
    hide Encoded, Length;
    var at, e := |before|, Encoded(r);
    EncodedParts(r);
    Middle(data, before, e);
    assert data[at] == e[0] && data[at + 1] == e[1];
    Within(data, at, |e|, 2, |r|);
  }

  lemma Middle(data: seq<Byte>, before: seq<Byte>, e: seq<Byte>)
    requires before + e <= data
    ensures data[|before|..|before| + |e|] == e && forall i | 0 <= i < |e| :: data[|before| + i] == e[i]
  {
    forall i | 0 <= i < |e|
      ensures data[|before| + i] == e[i]
    {
      assert (before + e)[|before| + i] == e[i];
    }
  }
}
