/** File specifications as text: the tokens, the directory path, the name and
    the version, and how a stored name is shown. */
module NameSyntax {

  type Byte = x: int | 0 <= x < 256

  datatype Option<T> = None | Some(value: T)

  datatype Result<T> = Ok(value: T) | Err

  datatype Level = Ods2 | Ods5

  datatype Tok = Lit(c: Byte) | Sep(c: Byte) // a character taken literally, or a delimiter

  datatype Version = Highest | Exact(n: int) | Relative(n: int) | All

  datatype FileName = FileName(name: seq<Byte>, version: Version)

  datatype Spec = Spec(dirs: seq<seq<Byte>>, file: Option<FileName>)

  const ANY: Byte := 1
  const ONE: Byte := 2
  const ELLIPSIS: seq<Byte> := [3]
  const MAX_VERSION := 32767

  function B(c: char): Byte
    requires c as int < 256
  {
    c as int
  }

  const DOT := Sep(B('.'))
  const SEMI := Sep(B(';'))

  // ---------------------------------------------------------------------
  // Tokens
  // ---------------------------------------------------------------------

  function Hex(c: char): (r: Option<int>)
    ensures r.Some? ==> 0 <= r.value < 16
  {
    if '0' <= c <= '9' then Some(c as int - '0' as int)
    else if 'a' <= c <= 'f' then Some(c as int - 'a' as int + 10)
    else if 'A' <= c <= 'F' then Some(c as int - 'A' as int + 10)
    else None
  }

  predicate Delimits(c: char) { c in "[]<>.;:*%?" }

  function Upper(c: char): char { if 'a' <= c <= 'z' then (c as int - 32) as char else c }

  function Latin1(c: char): Result<Byte> { if c as int < 256 then Ok(c as int) else Err }

  datatype Step = Step(tok: Tok, taken: nat)

  function Literally(c: Result<Byte>, taken: nat): Result<Step> {
    if c.Ok? then Ok(Step(Lit(c.value), taken)) else Err
  }

  // The token after an escape character.
  function Escaped(s: string): (r: Result<Step>)
    ensures r.Ok? ==> 1 < r.value.taken <= |s|
  {
    if |s| < 2 then Err
    else if s[1] in "_ " then Ok(Step(Lit(B(' ')), 2))
    else if s[1] in "Uu" then
      if |s| < 6 || Hex(s[2]).None? || Hex(s[3]).None? || Hex(s[4]).None? || Hex(s[5]).None? then Err
      else
        var n := ((Hex(s[2]).value * 16 + Hex(s[3]).value) * 16 + Hex(s[4]).value) * 16 + Hex(s[5]).value;
        if n < 256 then Ok(Step(Lit(n), 6)) else Err
    else if Hex(s[1]).Some? then
      if |s| < 3 || Hex(s[2]).None? then Err else Ok(Step(Lit(Hex(s[1]).value * 16 + Hex(s[2]).value), 3))
    else Literally(Latin1(s[1]), 2)
  }

  // The first token, and how many characters it takes.
  function First(level: Level, s: string): (r: Result<Step>)
    requires s != []
    ensures r.Ok? ==> 0 < r.value.taken <= |s|
  {
    if s[0] == '^' && level.Ods5? then Escaped(s)
    else if Delimits(s[0]) then Ok(Step(Sep(B(s[0])), 1))
    else Literally(Latin1(if level.Ods2? then Upper(s[0]) else s[0]), 1)
  }

  function After(t: Tok, r: Result<seq<Tok>>): Result<seq<Tok>> {
    if r.Ok? then Ok([t] + r.value) else Err
  }

  function Tokens(level: Level, s: string): Result<seq<Tok>>
    decreases |s|
  {
    if s == [] then Ok([])
    else
      var f := First(level, s);
      if f.Err? then Err else After(f.value.tok, Tokens(level, s[f.value.taken..]))
  }

  function Behind(ts: seq<Tok>, r: Result<seq<Tok>>): Result<seq<Tok>> {
    if r.Ok? then Ok(ts + r.value) else Err
  }

  lemma BehindAfter(ts: seq<Tok>, t: Tok, r: Result<seq<Tok>>)
    ensures Behind(ts, After(t, r)) == Behind(ts + [t], r)
  {
    if r.Ok? { assert ts + ([t] + r.value) == (ts + [t]) + r.value; }
  }

  lemma BehindEnds(ts: seq<Tok>, r: Result<seq<Tok>>)
    ensures Behind([], r) == r && Behind(ts, Ok([])) == Ok(ts)
  {
    if r.Ok? { assert [] + r.value == r.value; }
    assert ts + [] == ts;
  }

  /** tokenize */
  method Tokenize(level: Level, s: string) returns (r: Result<seq<Tok>>)
    ensures r == Tokens(level, s)
  {
    hide First;
    var out: seq<Tok>, i := [], 0;
    assert s[0..] == s;
    BehindEnds([], Tokens(level, s));
    while i < |s|
      invariant 0 <= i <= |s| && Tokens(level, s) == Behind(out, Tokens(level, s[i..]))
    {
      var f := First(level, s[i..]);
      if f.Err? {
        return Err;
      }
      assert s[i..][f.value.taken..] == s[i + f.value.taken..];
      BehindAfter(out, f.value.tok, Tokens(level, s[i + f.value.taken..]));
      out := out + [f.value.tok];
      i := i + f.value.taken;
    }
    BehindEnds(out, Ok([]));
    r := Ok(out);
  }

  function Literal(t: Tok): Byte {
    if t == Sep(B('*')) then ANY else if t == Sep(B('%')) || t == Sep(B('?')) then ONE else t.c
  }

  function Literals(ts: seq<Tok>): (r: seq<Byte>)
    ensures |r| == |ts| && forall i | 0 <= i < |ts| :: r[i] == Literal(ts[i])
  {
    seq(|ts|, i requires 0 <= i < |ts| => Literal(ts[i]))
  }

  // ---------------------------------------------------------------------
  // Places
  // ---------------------------------------------------------------------

  /** The first place of a token. */
  function Find(ts: seq<Tok>, t: Tok): (r: Option<nat>)
    ensures r.Some? ==> r.value < |ts| && ts[r.value] == t && t !in ts[..r.value]
    ensures r.None? <==> t !in ts
  {
    if ts == [] then None
    else if ts[0] == t then Some(0)
    else
      assert ts == [ts[0]] + ts[1..];
      var r := Find(ts[1..], t);
      if r.None? then None else
      assert ts[..r.value + 1] == [ts[0]] + ts[1..][..r.value]; Some(r.value + 1)
  }

  /** The last place of a token. */
  function FindLast(ts: seq<Tok>, t: Tok): (r: Option<nat>)
    ensures r.Some? ==> r.value < |ts| && ts[r.value] == t && forall i | r.value < i < |ts| :: ts[i] != t
    ensures r.None? <==> t !in ts
  {
    if ts == [] then None
    else if ts[|ts| - 1] == t then Some(|ts| - 1)
    else
      assert ts == ts[..|ts| - 1] + [ts[|ts| - 1]];
      FindLast(ts[..|ts| - 1], t)
  }

  // ---------------------------------------------------------------------
  // The version
  // ---------------------------------------------------------------------

  predicate IsDigit(c: Byte) { B('0') <= c <= B('9') }

  function Number(ds: seq<Byte>): int {
    if ds == [] then 0 else Number(ds[..|ds| - 1]) * 10 + (ds[|ds| - 1] - B('0'))
  }

  function ParseVersion(v: seq<Tok>): Result<Version> {
    if v == [Sep(B('*'))] then Ok(All)
    else
      var s := Literals(v);
      var neg := s != [] && s[0] == B('-');
      var ds := if neg then s[1..] else s;
      if ds == [] then if neg then Err else Ok(Highest)
      else if |ds| > 5 || exists d <- ds :: !IsDigit(d) then Err
      else
        var n := Number(ds);
        if n == 0 then Ok(Highest)
        else if n > MAX_VERSION then Err
        else if neg then Ok(Relative(n))
        else Ok(Exact(n))
  }

  // ---------------------------------------------------------------------
  // The name
  // ---------------------------------------------------------------------

  predicate Numeric(t: Tok) { (t.Lit? && (IsDigit(t.c) || t.c == B('-'))) || t == Sep(B('*')) }

  function Dots(ts: seq<Tok>): nat {
    if ts == [] then 0 else Dots(ts[..|ts| - 1]) + if ts[|ts| - 1] == DOT then 1 else 0
  }

  // Where the version starts, and where the name ends before it.
  function VersionAt(ts: seq<Tok>): (r: Option<nat>)
    ensures r.Some? ==> r.value < |ts|
  {
    var semi := FindLast(ts, SEMI);
    if semi.Some? then semi
    else if Dots(ts) < 2 then None
    else
      var b := FindLast(ts, DOT);
      if b.None? || b.value + 1 == |ts| || exists t <- ts[b.value + 1..] :: !Numeric(t) then None else b
  }

  function Named(level: Level, body: seq<Tok>): Result<seq<Byte>> {
    var dot := FindLast(body, DOT);
    if level.Ods2? && Dots(body) > 1 then Err
    else if SEMI in body then Err
    else Ok(if dot.None? then Literals(body) + [B('.')] else Literals(body))
  }

  function ParseFile(level: Level, ts: seq<Tok>): Result<FileName> {
    var at := VersionAt(ts);
    var body := if at.Some? then ts[..at.value] else ts;
    var v := if at.Some? then ParseVersion(ts[at.value + 1..]) else Ok(Highest);
    var n := Named(level, body);
    if v.Err? || n.Err? then Err else Ok(FileName(n.value, v.value))
  }

  method CountDots(ts: seq<Tok>) returns (n: nat)
    ensures n == Dots(ts)
  {
    n := 0;
    assert ts[..0] == [];
    for i := 0 to |ts|
      invariant n == Dots(ts[..i])
    {
      assert ts[..i + 1][..i] == ts[..i];
      if ts[i] == DOT {
        n := n + 1;
      }
    }
    assert ts[..|ts|] == ts;
  }

  method NameOf(level: Level, body: seq<Tok>) returns (r: Result<seq<Byte>>)
    ensures r == Named(level, body)
  {
    hide Literal;
    var split := FindLast(body, DOT);
    var name: seq<Byte> := [];
    assert body[..0] == [];
    for i := 0 to |body|
      invariant name == Literals(body[..i]) && SEMI !in body[..i]
      invariant level.Ods2? ==> Dots(body[..i]) == if split.Some? && split.value < i then 1 else 0
    {
      assert body[..i + 1] == body[..i] + [body[i]] && body[..i + 1][..i] == body[..i];
      if body[i] == DOT && split != Some(i) && level.Ods2? {
        OneDot(body, i, split.value);
        return Err;
      }
      if body[i] == SEMI {
        return Err;
      }
      name := name + [Literal(body[i])];
    }
    assert body[..|body|] == body;
    r := Ok(if split.None? then name + [B('.')] else name);
  }

  /** parse_file: the version after the last semicolon, or after the last dot of
      several where it is a number, and the name before it. */
  method ParseFileName(level: Level, ts: seq<Tok>) returns (r: Result<FileName>)
    ensures r == ParseFile(level, ts)
  {
    hide ParseVersion, Named, Dots, Numeric;
    var dots := CountDots(ts);
    var at := FindLast(ts, SEMI);
    if at.None? && dots >= 2 {
      var b := FindLast(ts, DOT);
      if b.Some? && b.value + 1 < |ts| && forall t <- ts[b.value + 1..] :: Numeric(t) {
        at := b;
      }
    }
    assert at == VersionAt(ts);
    var body, version := ts, Highest;
    if at.Some? {
      var v := ParseVersion(ts[at.value + 1..]);
      if v.Err? {
        return Err;
      }
      body, version := ts[..at.value], v.value;
    }
    var name := NameOf(level, body);
    r := if name.Err? then Err else Ok(FileName(name.value, version));
  }

  // A dot before the last makes two.
  lemma OneDot(ts: seq<Tok>, i: nat, j: nat)
    requires i < |ts| && j < |ts| && i != j && ts[i] == DOT && ts[j] == DOT
    ensures Dots(ts) > 1
  {
    var a, b := if i < j then i else j, if i < j then j else i;
    DotsGrow(ts, a + 1);
    DotsGrow(ts, b + 1);
    DotsBetween(ts, a + 1, b);
    assert ts[..a + 1][..a] == ts[..a] && ts[..b + 1][..b] == ts[..b];
  }

  lemma {:induction false} DotsBetween(ts: seq<Tok>, i: nat, j: nat)
    requires i <= j <= |ts|
    ensures Dots(ts[..i]) <= Dots(ts[..j])
  {
    if i < j {
      DotsBetween(ts, i, j - 1);
      assert ts[..j][..j - 1] == ts[..j - 1];
    }
  }

  lemma DotsGrow(ts: seq<Tok>, i: nat)
    requires i <= |ts|
    ensures Dots(ts[..i]) <= Dots(ts)
  {
    DotsBetween(ts, i, |ts|);
    assert ts[..|ts|] == ts;
  }

  // ---------------------------------------------------------------------
  // The directory path
  // ---------------------------------------------------------------------

  predicate Bracket(t: Tok) { t.Sep? && t.c in [B('['), B(']'), B('<'), B('>'), B(':')] }

  // The dots at the start.
  function Leading(ts: seq<Tok>): (n: nat)
    ensures n <= |ts| && (ts != [] && ts[0] == DOT ==> n > 0)
  {
    if ts == [] || ts[0] != DOT then 0 else 1 + Leading(ts[1..])
  }

  function Put(dirs: seq<seq<Byte>>, comp: seq<Byte>): seq<seq<Byte>> {
    if comp == [] then dirs else dirs + [comp]
  }

  // The components of a path, with what has been read of them.
  function Path(ts: seq<Tok>, comp: seq<Byte>, dirs: seq<seq<Byte>>): Result<seq<seq<Byte>>>
    decreases |ts|
  {
    if ts == [] then Ok(Put(dirs, comp))
    else if ts[0] == DOT then
      var n := Leading(ts);
      if n == 1 then Path(ts[1..], [], Put(dirs, comp))
      else if n == 3 then Path(ts[3..], [], Put(dirs, comp) + [ELLIPSIS])
      else Err
    else if Bracket(ts[0]) || ts[0] == SEMI then Err
    else Path(ts[1..], comp + [Literal(ts[0])], dirs)
  }

  const MFD: seq<Byte> := [B('0'), B('0'), B('0'), B('0'), B('0'), B('0')]

  // The path names the top directory or starts from it.
  function FromTop(dirs: seq<seq<Byte>>): seq<seq<Byte>> {
    if dirs != [] && dirs[0] == MFD then dirs[1..] else dirs
  }

  method CountLeading(ts: seq<Tok>, i: nat) returns (n: nat)
    requires i <= |ts|
    ensures n == Leading(ts[i..])
  {
    n := 0;
    while i + n < |ts| && ts[i + n] == DOT
      invariant i + n <= |ts| && Leading(ts[i..]) == n + Leading(ts[i + n..])
    {
      assert ts[i + n..][1..] == ts[i + n + 1..];
      n := n + 1;
    }
  }

  /** The components between the brackets. */
  method ParsePath(ts: seq<Tok>) returns (r: Result<seq<seq<Byte>>>)
    ensures r == Path(ts, [], [])
  {
    hide Leading, Literal, Put, Bracket;
    var comp: seq<Byte>, dirs: seq<seq<Byte>>, i := [], [], 0;
    assert ts[0..] == ts;
    while i < |ts|
      invariant 0 <= i <= |ts| && Path(ts, [], []) == Path(ts[i..], comp, dirs)
    {
      assert forall k | 0 <= k <= |ts| - i :: ts[i..][k..] == ts[i + k..];
      if ts[i] == DOT {
        var n := CountLeading(ts, i);
        dirs, comp := Put(dirs, comp), [];
        if n == 1 {
          i := i + 1;
        } else if n == 3 {
          dirs := dirs + [ELLIPSIS];
          i := i + 3;
        } else {
          return Err;
        }
      } else if Bracket(ts[i]) || ts[i] == SEMI {
        return Err;
      } else {
        comp := comp + [Literal(ts[i])];
        i := i + 1;
      }
    }
    r := Ok(Put(dirs, comp));
  }

  // ---------------------------------------------------------------------
  // A whole specification
  // ---------------------------------------------------------------------

  // What follows a device name.
  function Undeviced(ts: seq<Tok>): seq<Tok> {
    var i := Find(ts, Sep(B(':')));
    if i.Some? then ts[i.value + 1..] else ts
  }

  function ParseRest(level: Level, dirs: seq<seq<Byte>>, ts: seq<Tok>): Result<Spec> {
    if exists t <- ts :: Bracket(t) then Err
    else if ts == [] then Ok(Spec(dirs, None))
    else
      var f := ParseFile(level, ts);
      if f.Err? then Err else Ok(Spec(dirs, Some(f.value)))
  }

  // The bracket that ends the path.
  function Closer(t: Tok): (r: Tok)
    ensures r != t || t == Sep(B('>'))
  {
    if t == Sep(B('[')) then Sep(B(']')) else Sep(B('>'))
  }

  predicate Opens(ts: seq<Tok>) { ts != [] && (ts[0] == Sep(B('[')) || ts[0] == Sep(B('<'))) }

  function ParseToks(level: Level, all: seq<Tok>): Result<Spec> {
    var ts := Undeviced(all);
    if !Opens(ts) then ParseRest(level, [], ts)
    else
      var end := Find(ts, Closer(ts[0]));
      if end.None? then Err
      else
        var dirs := Path(ts[1..end.value], [], []);
        if dirs.Err? then Err else ParseRest(level, FromTop(dirs.value), ts[end.value + 1..])
  }

  function ParseText(level: Level, s: string): Result<Spec> {
    var ts := Tokens(level, s);
    if ts.Err? then Err else ParseToks(level, ts.value)
  }

  method ParseAfter(level: Level, dirs: seq<seq<Byte>>, ts: seq<Tok>) returns (r: Result<Spec>)
    ensures r == ParseRest(level, dirs, ts)
  {
    hide ParseFile, Bracket;
    if exists t <- ts :: Bracket(t) {
      return Err;
    }
    if ts == [] {
      return Ok(Spec(dirs, None));
    }
    var f := ParseFileName(level, ts);
    r := if f.Err? then Err else Ok(Spec(dirs, Some(f.value)));
  }

  /** parse: a file specification, each part of which may be missing. */
  method Parse(level: Level, s: string) returns (r: Result<Spec>)
    ensures r == ParseText(level, s)
  {
    hide Tokens, Path, ParseRest, FromTop, Closer;
    var all := Tokenize(level, s);
    if all.Err? {
      return Err;
    }
    var ts := all.value;
    var device := Find(ts, Sep(B(':')));
    if device.Some? {
      ts := ts[device.value + 1..];
    }
    assert ts == Undeviced(all.value);
    if Opens(ts) {
      var end := Find(ts, Closer(ts[0]));
      if end.None? {
        return Err;
      }
      var path := ParsePath(ts[1..end.value]);
      if path.Err? {
        return Err;
      }
      r := ParseAfter(level, FromTop(path.value), ts[end.value + 1..]);
    } else {
      r := ParseAfter(level, [], ts);
    }
  }

  // ---------------------------------------------------------------------
  // Names that may be stored
  // ---------------------------------------------------------------------

  /** The last dot of a name, before its type. */
  function TypeDot(name: seq<Byte>): (r: Option<nat>)
    ensures r.Some? ==> r.value < |name| && name[r.value] == B('.') && forall i | r.value < i < |name| ::
      name[i] != B('.')
    ensures r.None? <==> B('.') !in name
  {
    if name == [] then None
    else if name[|name| - 1] == B('.') then Some(|name| - 1)
    else
      assert name == name[..|name| - 1] + [name[|name| - 1]];
      TypeDot(name[..|name| - 1])
  }

  predicate Ods2Char(c: Byte) {
    B('A') <= c <= B('Z') || IsDigit(c) || c == B('$') || c == B('-') || c == B('_')
  }

  predicate Ods5Char(c: Byte) {
    c >= 0x20 && c !in [B('"'), B('*'), 0x5c, B(':'), B('<'), B('>'), B('/'), B('?'), B('|')]
  }

  /** validate */
  predicate Valid(level: Level, name: seq<Byte>) {
    var dot := TypeDot(name);
    && dot.Some?
    && match level
       case Ods2 =>
         && dot.value <= 39 && |name| - dot.value - 1 <= 39
         && (forall i | 0 <= i < |name| && i != dot.value :: Ods2Char(name[i]))
       case Ods5 => |name| <= 236 && forall c <- name :: Ods5Char(c)
  }

  // ---------------------------------------------------------------------
  // Names shown
  // ---------------------------------------------------------------------

  function HexDigit(n: int): char
    requires 0 <= n < 16
  {
    if n < 10 then ('0' as int + n) as char else ('A' as int + n - 10) as char
  }

  predicate Marked(c: int) { c in [B(','), B(';'), B('['), B(']'), B('%'), B('^'), B('&'), B('<'), B('>'), B(':')] }

  // A 16-bit character of a name as it is shown.
  function Shown(level: Level, c: int, typeDot: bool): string
    requires 0 <= c < 0x1_0000
  {
    if level.Ods2? then [(c % 256) as char]
    else if c == B('.') && !typeDot then "^."
    else if c == B(' ') then "^_"
    else if Marked(c) then ['^', c as char]
    else if 0xd800 <= c < 0xe000 then "?"
    else if c > 0xff
      then ['^', 'U', HexDigit(c / 4096), HexDigit(c / 256 % 16), HexDigit(c / 16 % 16), HexDigit(c % 16)]
    else if c < 0x20 || 0x7f <= c < 0xa0 then ['^', HexDigit(c / 16), HexDigit(c % 16)]
    else [c as char]
  }

  // The name from a place on.
  function Tail(level: Level, name: seq<Byte>, dot: Option<nat>, i: nat): string
    requires i <= |name|
    decreases |name| - i
  {
    if i == |name| then "" else Shown(level, name[i], dot == Some(i)) + Tail(level, name, dot, i + 1)
  }

  function Text(level: Level, name: seq<Byte>): string { Tail(level, name, TypeDot(name), 0) }

  /** display, of a name of single bytes. */
  method Display(level: Level, name: seq<Byte>) returns (out: string)
    ensures out == Text(level, name)
  {
    hide Shown;
    var dot := TypeDot(name);
    out := "";
    for i := 0 to |name|
      invariant out + Tail(level, name, dot, i) == Text(level, name)
    {
      assert out + (Shown(level, name[i], dot == Some(i)) + Tail(level, name, dot, i + 1))
          == (out + Shown(level, name[i], dot == Some(i))) + Tail(level, name, dot, i + 1);
      out := out + Shown(level, name[i], dot == Some(i));
    }
    assert out + "" == out;
  }

  // ---------------------------------------------------------------------
  // What is shown parses back
  // ---------------------------------------------------------------------

  predicate Allowed(level: Level, c: Byte) { if level.Ods2? then Ods2Char(c) else Ods5Char(c) }

  // The token a character of a name is shown as.
  function TokOf(c: Byte, typeDot: bool): Tok { if typeDot then Sep(c) else Lit(c) }

  lemma HexBack(n: int)
    requires 0 <= n < 16
    ensures Hex(HexDigit(n)) == Some(n) && HexDigit(n) !in "_ Uu"
  {
  }

  /** However it is shown, a character is read as itself. */
  lemma ShownReads(level: Level, c: Byte, typeDot: bool, rest: string)
    requires if typeDot then c == B('.') else Allowed(level, c)
    ensures var p := Shown(level, c, typeDot); First(level, p + rest) == Ok(Step(TokOf(c, typeDot), |p|)) && p != []
  {
    hide Hex, HexDigit;
    if level.Ods5? {
      ShownReads5(c, typeDot, rest);
    }
  }

  lemma ShownReads5(c: Byte, typeDot: bool, rest: string)
    requires if typeDot then c == B('.') else Ods5Char(c)
    ensures var p := Shown(Ods5, c, typeDot); First(Ods5, p + rest) == Ok(Step(TokOf(c, typeDot), |p|)) && p != []
  {
    hide Hex, HexDigit;
    var p := Shown(Ods5, c, typeDot);
    var s := p + rest;
    assert s[0] == p[0] && (|p| > 1 ==> s[1] == p[1]) && (|p| > 2 ==> s[2] == p[2]);
    if Marked(c) || c == B('.') {
      MarkedPlain(c);
    } else if 0x7f <= c < 0xa0 {
      HexBack(c / 16);
      HexBack(c % 16);
    }
  }

  lemma MarkedPlain(c: Byte)
    requires Marked(c) || c == B('.')
    ensures Hex(c as char).None? && c as char !in "_ Uu"
  {
  }

  function NameToks(name: seq<Byte>, dot: Option<nat>): (r: seq<Tok>)
    ensures |r| == |name| && forall i | 0 <= i < |name| :: r[i] == TokOf(name[i], dot == Some(i))
  {
    seq(|name|, i requires 0 <= i < |name| => TokOf(name[i], dot == Some(i)))
  }

  // Each character may be in a name, and the dot is one.
  predicate Showable(level: Level, name: seq<Byte>, dot: Option<nat>) {
    forall i | 0 <= i < |name| :: if dot == Some(i) then name[i] == B('.') else Allowed(level, name[i])
  }

  // A token is read, then the rest.
  lemma ThenReads(level: Level, p: string, t: Tok, rest: string)
    requires p != [] && First(level, p + rest) == Ok(Step(t, |p|))
    ensures Tokens(level, p + rest) == After(t, Tokens(level, rest))
  {
    hide First;
    assert (p + rest)[|p|..] == rest;
  }

  lemma {:induction false} TailReads(level: Level, name: seq<Byte>, dot: Option<nat>, i: nat, rest: string)
    requires Showable(level, name, dot) && i <= |name|
    ensures Tokens(level, Tail(level, name, dot, i) + rest) == Behind(NameToks(name, dot)[i..], Tokens(level, rest))
    decreases |name| - i
  {
    hide First, Shown, Allowed, Tokens, After, Behind;
    var ts := NameToks(name, dot);
    if i == |name| {
      assert "" + rest == rest && ts[i..] == [];
      BehindEnds([], Tokens(level, rest));
    } else {
      var p, t := Shown(level, name[i], dot == Some(i)), Tail(level, name, dot, i + 1);
      ShownReads(level, name[i], dot == Some(i), t + rest);
      TailReads(level, name, dot, i + 1, rest);
      ThenReads(level, p, ts[i], t + rest);
      assert (p + t) + rest == p + (t + rest);
      assert ts[i..] == [ts[i]] + ts[i + 1..];
      AfterBehind(ts[i], ts[i + 1..], Tokens(level, rest));
    }
  }

  lemma AfterBehind(t: Tok, ts: seq<Tok>, r: Result<seq<Tok>>)
    ensures After(t, Behind(ts, r)) == Behind([t] + ts, r)
  {
    if r.Ok? { assert [t] + (ts + r.value) == ([t] + ts) + r.value; }
  }

  lemma TextReads(level: Level, name: seq<Byte>, rest: string)
    requires Showable(level, name, TypeDot(name))
    ensures Tokens(level, Text(level, name) + rest) == Behind(NameToks(name, TypeDot(name)), Tokens(level, rest))
  {
    hide Tokens, Tail, Allowed;
    var ts := NameToks(name, TypeDot(name));
    assert ts[0..] == ts;
    TailReads(level, name, TypeDot(name), 0, rest);
  }

  lemma ValidShowable(level: Level, name: seq<Byte>)
    requires Valid(level, name)
    ensures TypeDot(name).Some? && Showable(level, name, TypeDot(name))
  {
    hide Ods2Char, Ods5Char;
    if level.Ods5? { assert forall i | 0 <= i < |name| :: name[i] in name; }
  }

  // Just one dot.
  lemma {:induction false} DotsOne(ts: seq<Tok>, k: nat)
    requires k < |ts| && ts[k] == DOT && forall i | 0 <= i < |ts| && i != k :: ts[i] != DOT
    ensures Dots(ts) == 1
    decreases |ts|
  {
    var l := |ts| - 1;
    if k < l { DotsOne(ts[..l], k); } else { DotsNone(ts[..l]); }
  }

  lemma {:induction false} DotsNone(ts: seq<Tok>)
    requires forall i | 0 <= i < |ts| :: ts[i] != DOT
    ensures Dots(ts) == 0
    decreases |ts|
  {
    if ts != [] { DotsNone(ts[..|ts| - 1]); }
  }

  /** A name's tokens are its name, and nothing else. */
  lemma NameBack(level: Level, name: seq<Byte>, dot: nat)
    requires dot < |name| && name[dot] == B('.')
    ensures var ts := NameToks(name, Some(dot));
      && Named(level, ts) == Ok(name) && Dots(ts) == 1 && SEMI !in ts && Sep(B(':')) !in ts
      && (forall t <- ts :: !Bracket(t)) && !Opens(ts)
  {
    hide Dots;
    var ts := NameToks(name, Some(dot));
    DotsOne(ts, dot);
    assert Literals(ts) == name;
    assert ts[dot] in ts;
  }

  // ---------------------------------------------------------------------
  // Versions
  // ---------------------------------------------------------------------

  predicate AllDigits(s: string) { forall i | 0 <= i < |s| :: '0' <= s[i] <= '9' }

  function Digits(n: nat): (s: string)
    ensures s != [] && AllDigits(s)
  {
    var d := ('0' as int + n % 10) as char;
    if n < 10 then [d] else Digits(n / 10) + [d]
  }

  function DigitToks(s: string): (r: seq<Tok>)
    requires AllDigits(s)
    ensures |r| == |s| && forall i | 0 <= i < |s| :: r[i] == Lit(B(s[i]))
  {
    seq(|s|, i requires 0 <= i < |s| => Lit(B(s[i])))
  }

  lemma DigitFirst(level: Level, s: string)
    requires s != [] && '0' <= s[0] <= '9'
    ensures First(level, s) == Ok(Step(Lit(B(s[0])), 1))
  {
  }

  lemma {:induction false} DigitsRead(level: Level, s: string)
    requires AllDigits(s)
    ensures Tokens(level, s) == Ok(DigitToks(s))
    decreases |s|
  {
    hide First;
    if s != [] {
      DigitFirst(level, s);
      DigitsRead(level, s[1..]);
      assert DigitToks(s) == [Lit(B(s[0]))] + DigitToks(s[1..]);
    }
  }

  lemma {:induction false} DigitsBack(n: nat)
    ensures Number(Literals(DigitToks(Digits(n)))) == n
  {
    var s := Digits(n);
    var ds := Literals(DigitToks(s));
    var d := ('0' as int + n % 10) as char;
    if n >= 10 {
      DigitsBack(n / 10);
      assert ds[..|ds| - 1] == Literals(DigitToks(Digits(n / 10)));
      assert ds[|ds| - 1] == B(d);
    } else {
      assert ds == [B(d)] && ds[..0] == [];
    }
  }

  lemma {:induction false} DigitsFew(n: nat, k: nat)
    requires k > 0 && n < Power10(k)
    ensures |Digits(n)| <= k
  {
    if n >= 10 {
      assert k > 1;
      DigitsFew(n / 10, k - 1);
    }
  }

  function Power10(k: nat): (r: int)
    ensures r >= 1
  {
    if k == 0 then 1 else 10 * Power10(k - 1)
  }

  lemma {:induction false} DigitsMany(n: nat, k: nat)
    requires Power10(k) <= n
    ensures |Digits(n)| > k
  {
    if k > 0 && n >= 10 { DigitsMany(n / 10, k - 1); }
  }

  // What a number is as a version.
  function Versioned(n: nat, back: bool): Result<Version> {
    if n == 0 then Ok(Highest) else if n > 32767 then Err else if back then Ok(Relative(n)) else Ok(Exact(n))
  }

  lemma DigitsPlain(n: nat)
    ensures var ds := Literals(DigitToks(Digits(n)));
      && ds != [] && ds[0] != B('-') && (forall d <- ds :: IsDigit(d)) && (|ds| > 5 <==> n >= 100000)
  {
    var ds := Literals(DigitToks(Digits(n)));
    assert Power10(5) == 100000;
    if n < 100000 { DigitsFew(n, 5); } else { DigitsMany(n, 5); }
    assert IsDigit(ds[0]);
  }

  /** A number in digits parses to that version and, after a minus, to that many versions
      back; zero to the highest version, and a number that is too big does not parse. */
  lemma VersionBack(n: nat)
    ensures ParseVersion(DigitToks(Digits(n))) == Versioned(n, false)
    ensures ParseVersion([Lit(B('-'))] + DigitToks(Digits(n))) == Versioned(n, true)
  {
    var ts := DigitToks(Digits(n));
    var back := [Lit(B('-'))] + ts;
    DigitsBack(n);
    DigitsPlain(n);
    assert ts[0].Lit? && back[0].Lit?;
    assert Literals(back)[1..] == Literals(ts);
  }

  // ---------------------------------------------------------------------
  // The round trip
  // ---------------------------------------------------------------------

  predicate Writable(v: Version) { v.Highest? || v.All? || 1 <= v.n <= MAX_VERSION }

  // How a version is written after a name.
  function Suffix(v: Version): string
    requires Writable(v)
  {
    match v
    case Highest => ""
    case All => ";*"
    case Exact(n) => ";" + Digits(n)
    case Relative(n) => ";-" + Digits(n)
  }

  // And its tokens, after the semicolon.
  function VersionToks(v: Version): seq<Tok>
    requires Writable(v) && !v.Highest?
  {
    if v.All? then [Sep(B('*'))]
    else if v.Relative? then [Lit(B('-'))] + DigitToks(Digits(v.n))
    else DigitToks(Digits(v.n))
  }

  function SuffixToks(v: Version): seq<Tok>
    requires Writable(v)
  {
    if v.Highest? then [] else [SEMI] + VersionToks(v)
  }

  lemma SuffixReads(level: Level, v: Version)
    requires Writable(v)
    ensures Tokens(level, Suffix(v)) == Ok(SuffixToks(v))
  {
    hide Tokens, Suffix, VersionToks, First;
    SuffixStarts(v);
    if v.Highest? {
      NothingReads(level);
    } else {
      VersionReads(level, v);
      DelimiterReads(level, ';', Suffix(v)[1..]);
    }
  }

  lemma SuffixStarts(v: Version)
    requires Writable(v)
    ensures Suffix(v) == if v.Highest? then "" else [';'] + Suffix(v)[1..]
  {
  }

  lemma NothingReads(level: Level)
    ensures Tokens(level, "") == Ok([])
  {
  }

  lemma VersionReads(level: Level, v: Version)
    requires Writable(v) && !v.Highest?
    ensures Tokens(level, Suffix(v)[1..]) == Ok(VersionToks(v))
  {
    hide Tokens, First;
    var s := Suffix(v)[1..];
    NothingReads(level);
    if v.All? {
      assert ['*'] + "" == s && [Sep(B('*'))] + [] == VersionToks(v);
      DelimiterReads(level, '*', "");
    } else {
      var ds := Digits(v.n);
      DigitsRead(level, ds);
      if v.Relative? {
        assert s == "-" + ds;
        MinusReads(level, ds);
      } else {
        assert s == ds;
      }
    }
  }

  lemma MinusReads(level: Level, rest: string)
    ensures Tokens(level, "-" + rest) == After(Lit(B('-')), Tokens(level, rest))
  {
    assert ("-" + rest)[1..] == rest;
  }

  lemma VersionPlain(v: Version)
    requires Writable(v) && !v.Highest?
    ensures forall t <- VersionToks(v) :: t != SEMI && !Bracket(t) && t != Sep(B(':'))
  {
  }

  lemma VersionParses(v: Version)
    requires Writable(v) && !v.Highest?
    ensures ParseVersion(VersionToks(v)) == Ok(v)
  {
    hide ParseVersion;
    if v.All? {
      AllParses();
    } else {
      VersionBack(v.n);
    }
  }

  lemma AllParses()
    ensures ParseVersion([Sep(B('*'))]) == Ok(All) && ParseVersion([]) == Ok(Highest)
  {
  }

  lemma {:induction false} LastIn(a: seq<Tok>, t: Tok, b: seq<Tok>)
    requires t !in b
    ensures FindLast(a + [t] + b, t) == Some(|a|)
    decreases |b|
  {
    var all := a + [t] + b;
    if b == [] {
      assert all[|all| - 1] == t;
    } else {
      var l := |b| - 1;
      assert b[l] in b && all[|all| - 1] == b[l];
      assert all[..|all| - 1] == a + [t] + b[..l];
      LastIn(a, t, b[..l]);
    }
  }

  /** A name's tokens with its version's are the file name. */
  lemma FileBack(level: Level, name: seq<Byte>, dot: nat, v: Version)
    requires dot < |name| && name[dot] == B('.') && Writable(v)
    ensures ParseFile(level, NameToks(name, Some(dot)) + SuffixToks(v)) == Ok(FileName(name, v))
  {
    hide Named, Dots, ParseVersion, Bracket, Opens, VersionToks;
    var ts := NameToks(name, Some(dot));
    NameBack(level, name, dot);
    if v.Highest? {
      assert ts + [] == ts;
    } else {
      var ds := VersionToks(v);
      assert ts + ([SEMI] + ds) == ts + [SEMI] + ds;
      VersionPlain(v);
      LastIn(ts, SEMI, ds);
      VersionParses(v);
      var all := ts + [SEMI] + ds;
      assert all[..|ts|] == ts && all[|ts| + 1..] == ds;
    }
  }

  lemma RestBack(level: Level, dirs: seq<seq<Byte>>, name: seq<Byte>, dot: nat, v: Version)
    requires dot < |name| && name[dot] == B('.') && Writable(v)
    ensures ParseRest(level, dirs, NameToks(name, Some(dot)) + SuffixToks(v)) == Ok(Spec(dirs, Some(FileName(name, v))))
  {
    hide Named, Dots, ParseFile, Opens, SuffixToks, Bracket, NameToks;
    NameBack(level, name, dot);
    FileBack(level, name, dot, v);
    SuffixPlain(v);
  }

  /** Every name that may be stored, shown with any version or none, parses to
      that name and version. */
  lemma RoundTrip(level: Level, name: seq<Byte>, v: Version)
    requires Valid(level, name) && Writable(v)
    ensures ParseText(level, Text(level, name) + Suffix(v)) == Ok(Spec([], Some(FileName(name, v))))
  {
    hide Tokens, Text, Valid, Showable, Named, Dots, ParseRest, Bracket, Suffix, SuffixToks;
    ValidShowable(level, name);
    var dot := TypeDot(name).value;
    TextReads(level, name, Suffix(v));
    SuffixReads(level, v);
    RestBack(level, [], name, dot, v);
    NameBack(level, name, dot);
    SuffixPlain(v);
    var ts := NameToks(name, Some(dot));
    assert (ts + SuffixToks(v))[0] == ts[0];
    assert Sep(B(':')) !in ts + SuffixToks(v);
  }

  lemma SuffixPlain(v: Version)
    requires Writable(v)
    ensures forall t <- SuffixToks(v) :: !Bracket(t) && t != Sep(B(':'))
  {
    hide VersionToks;
    if !v.Highest? { VersionPlain(v); }
  }

  // ---------------------------------------------------------------------
  // With a path
  // ---------------------------------------------------------------------

  // A directory's name in a path: something, without a dot.
  predicate Component(level: Level, d: seq<Byte>) { d != [] && B('.') !in d && forall c <- d :: Allowed(level, c) }

  /** A path between its brackets. */
  function PathText(level: Level, dirs: seq<seq<Byte>>): string {
    if dirs == [] then ""
    else if |dirs| == 1 then Text(level, dirs[0])
    else Text(level, dirs[0]) + ("." + PathText(level, dirs[1..]))
  }

  function Lits(d: seq<Byte>): (r: seq<Tok>)
    ensures |r| == |d| && forall i | 0 <= i < |d| :: r[i] == Lit(d[i])
  {
    seq(|d|, i requires 0 <= i < |d| => Lit(d[i]))
  }

  function PathToks(dirs: seq<seq<Byte>>): seq<Tok> {
    if dirs == [] then [] else if |dirs| == 1 then Lits(dirs[0]) else Lits(dirs[0]) + ([DOT] + PathToks(dirs[1..]))
  }

  lemma ComponentReads(level: Level, d: seq<Byte>, rest: string)
    requires Component(level, d)
    ensures Tokens(level, Text(level, d) + rest) == Behind(Lits(d), Tokens(level, rest))
  {
    hide Tokens, Text, Allowed;
    assert TypeDot(d).None?;
    forall i | 0 <= i < |d|
      ensures Allowed(level, d[i])
    {
      assert d[i] in d;
    }
    TextReads(level, d, rest);
    assert NameToks(d, None) == Lits(d);
  }

  lemma DelimiterReads(level: Level, c: char, rest: string)
    requires Delimits(c)
    ensures Tokens(level, [c] + rest) == After(Sep(B(c)), Tokens(level, rest))
  {
    assert ([c] + rest)[1..] == rest;
  }

  lemma BehindTwice(a: seq<Tok>, t: Tok, b: seq<Tok>, r: Result<seq<Tok>>)
    ensures Behind(a, After(t, Behind(b, r))) == Behind(a + ([t] + b), r)
  {
    if r.Ok? { assert a + ([t] + (b + r.value)) == (a + ([t] + b)) + r.value; }
  }

  lemma {:induction false} PathReads(level: Level, dirs: seq<seq<Byte>>, rest: string)
    requires forall i | 0 <= i < |dirs| :: Component(level, dirs[i])
    ensures Tokens(level, PathText(level, dirs) + rest) == Behind(PathToks(dirs), Tokens(level, rest))
  {
    hide Tokens, Text, Component;
    if dirs == [] {
      assert "" + rest == rest;
      BehindEnds([], Tokens(level, rest));
    } else if |dirs| == 1 {
      ComponentReads(level, dirs[0], rest);
    } else {
      var more := PathText(level, dirs[1..]);
      PathReads(level, dirs[1..], rest);
      DelimiterReads(level, '.', more + rest);
      ComponentReads(level, dirs[0], "." + (more + rest));
      assert Text(level, dirs[0]) + ("." + more) + rest == Text(level, dirs[0]) + ("." + (more + rest));
      BehindTwice(Lits(dirs[0]), DOT, PathToks(dirs[1..]), Tokens(level, rest));
    }
  }

  // A component's characters gather.
  lemma {:induction false} PathGathers(d: seq<Byte>, rest: seq<Tok>, comp: seq<Byte>, dirs: seq<seq<Byte>>)
    ensures Path(Lits(d) + rest, comp, dirs) == Path(rest, comp + d, dirs)
    decreases |d|
  {
    var ts := Lits(d) + rest;
    if d == [] {
      assert ts == rest && comp + d == comp;
    } else {
      assert ts[0] == Lit(d[0]) && ts[1..] == Lits(d[1..]) + rest;
      PathGathers(d[1..], rest, comp + [d[0]], dirs);
      assert comp + [d[0]] + d[1..] == comp + d;
    }
  }

  lemma {:induction false} PathBack(dirs: seq<seq<Byte>>, done: seq<seq<Byte>>)
    requires forall i | 0 <= i < |dirs| :: dirs[i] != []
    ensures Path(PathToks(dirs), [], done) == Ok(done + dirs)
    decreases |dirs|
  {
    if dirs == [] {
      assert done + dirs == done;
    } else {
      var d, more := dirs[0], PathToks(dirs[1..]);
      assert [] + d == d && dirs == [d] + dirs[1..] && done + [d] + dirs[1..] == done + dirs;
      if |dirs| == 1 {
        PathGathers(d, [], [], done);
        assert Lits(d) + [] == Lits(d) && dirs == [d];
      } else {
        PathGathers(d, [DOT] + more, [], done);
        var ts := [DOT] + more;
        assert ts[1..] == more;
        StartsPlain(dirs[1..]);
        assert Leading(ts) == 1;
        PathBack(dirs[1..], done + [d]);
      }
    }
  }

  lemma StartsPlain(dirs: seq<seq<Byte>>)
    requires dirs != [] && dirs[0] != []
    ensures var ts := PathToks(dirs); ts != [] && ts[0] != DOT
  {
    assert Lits(dirs[0])[0].Lit?;
  }

  lemma {:induction false} PathPlain(dirs: seq<seq<Byte>>)
    ensures forall t <- PathToks(dirs) :: t.Lit? || t == DOT
  {
    if |dirs| > 1 { PathPlain(dirs[1..]); }
  }

  lemma {:induction false} FirstIn(a: seq<Tok>, t: Tok, b: seq<Tok>)
    requires t !in a
    ensures Find(a + [t] + b, t) == Some(|a|)
    decreases |a|
  {
    var all := a + [t] + b;
    if a != [] {
      assert all[0] == a[0] && a[0] in a && all[1..] == a[1..] + [t] + b;
      FirstIn(a[1..], t, b);
    }
  }

  /** A path, a name and a version all come back, unless the path's first name
      is that of the top directory. */
  lemma PathRoundTrip(level: Level, dirs: seq<seq<Byte>>, name: seq<Byte>, v: Version)
    requires (forall i | 0 <= i < |dirs| :: Component(level, dirs[i])) && Valid(level, name) && Writable(v)
    ensures ParseText(level, "[" + (PathText(level, dirs) + ("]" + (Text(level, name) + Suffix(v)))))
         == Ok(Spec(FromTop(dirs), Some(FileName(name, v))))
  {
    hide Tokens, Text, Valid, Showable, Named, Dots, ParseRest, Bracket, Suffix, SuffixToks, PathText, PathToks,
         Component, Path;
    ValidShowable(level, name);
    var dot := TypeDot(name).value;
    var file := NameToks(name, Some(dot)) + SuffixToks(v);
    var end := Text(level, name) + Suffix(v);
    TextReads(level, name, Suffix(v));
    SuffixReads(level, v);
    DelimiterReads(level, ']', end);
    PathReads(level, dirs, "]" + end);
    DelimiterReads(level, '[', PathText(level, dirs) + ("]" + end));
    WholeReads(level, dirs, name, dot, v);
  }

  /** So the path is what was written just when it does not start at the top by name. */
  lemma PathReturns(level: Level, dirs: seq<seq<Byte>>, name: seq<Byte>, v: Version)
    requires (forall i | 0 <= i < |dirs| :: Component(level, dirs[i])) && Valid(level, name) && Writable(v)
    ensures (ParseText(level, "[" + (PathText(level, dirs) + ("]" + (Text(level, name) + Suffix(v))))) ==
             Ok(Spec(dirs, Some(FileName(name, v)))))
            <==> dirs == [] || dirs[0] != MFD
  {
    hide ParseText, PathText, Text, Suffix, Component, Valid;
    PathRoundTrip(level, dirs, name, v);
    assert dirs != [] ==> |dirs[1..]| < |dirs|;
  }

  lemma PlainNames(level: Level)
    ensures Component(level, MFD) && Component(level, [B('A')])
    ensures Valid(level, [B('X'), B('.')])
  {
  }

  /** [000000.A]X. comes back as [A]X. */
  lemma TopDropped(level: Level, v: Version)
    requires Writable(v)
    ensures var name := [B('X'), B('.')];
      ParseText(level, "[" + (PathText(level, [MFD, [B('A')]]) + ("]" + (Text(level, name) + Suffix(v)))))
      == Ok(Spec([[B('A')]], Some(FileName(name, v))))
  {
    hide ParseText, PathText, Text, Suffix, Valid, Component, Writable;
    var dirs := [MFD, [B('A')]];
    PlainNames(level);
    PathRoundTrip(level, dirs, [B('X'), B('.')], v);
    assert dirs[1..] == [[B('A')]];
  }

  // A path in brackets and what follows it.
  lemma Bracketed(level: Level, path: seq<Tok>, file: seq<Tok>)
    requires (forall t <- path :: t.Lit? || t == DOT) && Sep(B(':')) !in file
    ensures var dirs := Path(path, [], []);
      ParseToks(level, [Sep(B('['))] + (path + ([Sep(B(']'))] + file)))
      == if dirs.Err? then Err else ParseRest(level, FromTop(dirs.value), file)
  {
    hide ParseRest, Path, FromTop;
    var open, close := Sep(B('[')), Sep(B(']'));
    var ts := [open] + (path + ([close] + file));
    InParts(path, file, open, close);
    assert Undeviced(ts) == ts;
    FirstIn([open] + path, close, file);
    assert Find(ts, close) == Some(|path| + 1);
  }

  lemma InParts(path: seq<Tok>, file: seq<Tok>, open: Tok, close: Tok)
    requires (forall t <- path :: t.Lit? || t == DOT) && Sep(B(':')) !in file && open != Sep(B(':'))
    requires close != Sep(B(':'))
    ensures var ts := [open] + (path + ([close] + file));
      && ts == ([open] + path) + [close] + file && Sep(B(':')) !in ts && ts[0] == open
      && ts[1..|path| + 1] == path && ts[|path| + 2..] == file
  {
  }

  // The tokens of all of it.
  lemma WholeReads(level: Level, dirs: seq<seq<Byte>>, name: seq<Byte>, dot: nat, v: Version)
    requires (forall i | 0 <= i < |dirs| :: Component(level, dirs[i])) && dot < |name| && name[dot] == B('.')
    requires Writable(v)
    ensures var file := NameToks(name, Some(dot)) + SuffixToks(v);
      ParseToks(level, [Sep(B('['))] + (PathToks(dirs) + ([Sep(B(']'))] + file))) ==
        Ok(Spec(FromTop(dirs), Some(FileName(name, v))))
  {
    hide Named, Dots, ParseRest, SuffixToks, PathToks, Path, FromTop, ParseToks, Bracket, Opens, Allowed;
    var file := NameToks(name, Some(dot)) + SuffixToks(v);
    PathPlain(dirs);
    NameBack(level, name, dot);
    SuffixPlain(v);
    Bracketed(level, PathToks(dirs), file);
    forall i | 0 <= i < |dirs|
      ensures dirs[i] != []
    {
      assert Component(level, dirs[i]);
    }
    PathBack(dirs, []);
    assert [] + dirs == dirs;
    RestBack(level, FromTop(dirs), name, dot, v);
  }
}
