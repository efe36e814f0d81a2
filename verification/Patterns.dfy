/** Wildcards as they are written: what the characters of a file specification's text stand
    for when the name it parses to is matched. */
module Patterns {
  import opened NameSyntax
  import W = Wildcards

  type Name = seq<W.Char16>

  // The name a part of the text parses to, as the matcher has it.
  function Chars(name: seq<Byte>): (r: Name)
    ensures |r| == |name| && forall i | 0 <= i < |name| :: r[i] == name[i] as W.Char16
  {
    seq(|name|, i requires 0 <= i < |name| => name[i] as W.Char16)
  }

  /** A part of a specification matches a name. */
  ghost predicate Means(level: Level, text: string, s: Name) {
    var ts := Tokens(level, text);
    ts.Ok? && W.Matches(Chars(Literals(ts.value)), s)
  }

  // A token is read from its own characters, whatever follows.
  lemma FirstJoin(level: Level, a: string, b: string)
    requires a != [] && First(level, a).Ok?
    ensures First(level, a + b) == First(level, a)
  {
    hide Hex;
    var s := a + b;
    assert forall i | 0 <= i < |a| :: s[i] == a[i];
  }

  lemma {:induction false} TokensJoin(level: Level, a: string, b: string)
    requires Tokens(level, a).Ok?
    ensures Tokens(level, a + b) == Behind(Tokens(level, a).value, Tokens(level, b))
    decreases |a|
  {
    hide First;
    if a == [] {
      assert a + b == b;
      BehindEnds([], Tokens(level, b));
    } else {
      var f := First(level, a).value;
      FirstJoin(level, a, b);
      assert (a + b)[f.taken..] == a[f.taken..] + b;
      TokensJoin(level, a[f.taken..], b);
      AfterBehind(f.tok, Tokens(level, a[f.taken..]).value, Tokens(level, b));
    }
  }

  /** Texts side by side match names side by side. */
  lemma MeansJoin(level: Level, a: string, b: string, s: Name)
    requires Tokens(level, a).Ok? && Tokens(level, b).Ok?
    ensures Tokens(level, a + b).Ok?
    ensures Means(level, a + b, s) <==> exists k :: 0 <= k <= |s| && Means(level, a, s[..k]) && Means(level, b, s[k..])
  {
    hide Tokens, W.Matches;
    TokensJoin(level, a, b);
    var x, y := Tokens(level, a).value, Tokens(level, b).value;
    assert Chars(Literals(x + y)) == Chars(Literals(x)) + Chars(Literals(y));
    W.MatchesJoin(Chars(Literals(x)), Chars(Literals(y)), s);
    if k :| 0 <= k <= |s| && Means(level, a, s[..k]) && Means(level, b, s[k..]) {
      assert W.Matches(Chars(Literals(x)), s[..k]) && W.Matches(Chars(Literals(y)), s[k..]);
    }
    if Means(level, a + b, s) {
      var k :| 0 <= k <= |s| && W.Matches(Chars(Literals(x)), s[..k]) && W.Matches(Chars(Literals(y)), s[k..]);
      assert Means(level, a, s[..k]) && Means(level, b, s[k..]);
    }
  }

  lemma OneToken(level: Level, text: string, t: Tok, s: Name)
    requires Tokens(level, text) == Ok([t])
    ensures Means(level, text, s) <==> W.Matches([Literal(t) as W.Char16], s)
  {
    assert Chars(Literals([t])) == [Literal(t) as W.Char16];
  }

  lemma ReadsOne(level: Level, text: string)
    requires text != [] && First(level, text).Ok? && First(level, text).value.taken == |text|
    ensures Tokens(level, text) == Ok([First(level, text).value.tok])
  {
    assert text[|text|..] == "";
    assert [First(level, text).value.tok] + [] == [First(level, text).value.tok];
  }

  /** * is any string, % and ? any one character; every other character but an escape is
      itself, in either case.  The codes the marks are kept as are the marks. */
  lemma CharMeans(level: Level, c: char, s: Name)
    requires c as int < 256 && (level.Ods5? ==> c != '^')
    ensures Means(level, [c], s) <==>
      || c == '*' || c as int == 1
      || (|s| == 1 && (c == '%' || c == '?' || c as int == 2 || Same(c, s[0])))
  {
    hide W.Matches, Tokens;
    var t := First(level, [c]).value.tok;
    ReadsOne(level, [c]);
    OneToken(level, [c], t, s);
    W.MatchesOne(Literal(t) as W.Char16, s);
  }

  // The same character, in either case.
  predicate Same(c: char, x: W.Char16)
    requires c as int < 0x1_0000
  {
    var y := c as int as W.Char16;
    y == x || W.Cases(x, y) || W.Cases(y, x)
  }

  /** An escaped wildcard is itself. */
  lemma EscapedMeans(c: char, s: Name)
    requires Delimits(c)
    ensures Means(Ods5, ['^', c], s) <==> s == [c as int as W.Char16]
  {
    hide W.Matches, Tokens;
    var text := ['^', c];
    ReadsOne(Ods5, text);
    OneToken(Ods5, text, Lit(B(c)), s);
    W.MatchesOne(c as int as W.Char16, s);
  }

  /** * between two texts. */
  lemma StarMeans(level: Level, a: string, b: string, s: Name)
    requires Tokens(level, a).Ok? && Tokens(level, b).Ok?
    ensures Means(level, a + "*" + b, s) <==>
      exists i, j :: 0 <= i <= j <= |s| && Means(level, a, s[..i]) && Means(level, b, s[j..])
  {
    hide Means, Tokens;
    assert Tokens(level, "*").Ok? by { ReadsOne(level, "*"); }
    MeansJoin(level, a, "*", s);
    MeansJoin(level, a + "*", b, s);
    if Means(level, a + "*" + b, s) {
      var j :| 0 <= j <= |s| && Means(level, a + "*", s[..j]) && Means(level, b, s[j..]);
      MeansJoin(level, a, "*", s[..j]);
      var i :| 0 <= i <= j && Means(level, a, s[..j][..i]) && Means(level, "*", s[..j][i..]);
      assert s[..j][..i] == s[..i];
    }
    if i, j :| 0 <= i <= j <= |s| && Means(level, a, s[..i]) && Means(level, b, s[j..]) {
      assert s[..j][..i] == s[..i];
      CharMeans(level, '*', s[..j][i..]);
      MeansJoin(level, a, "*", s[..j]);
    }
  }

  // Characters and wildcards only.
  predicate Plain(ts: seq<Tok>) {
    forall t <- ts :: !Bracket(t) && t != DOT && t != SEMI
  }

  /** A name and a type with a dot between parse to just that, wildcards and all, in the
      highest version. */
  lemma NameParses(level: Level, n: string, t: string)
    requires Tokens(level, n).Ok? && Tokens(level, t).Ok?
    requires Plain(Tokens(level, n).value) && Plain(Tokens(level, t).value)
    ensures var name := Literals(Tokens(level, n).value) + [B('.')] + Literals(Tokens(level, t).value);
      ParseText(level, n + ("." + t)) == Ok(Spec([], Some(FileName(name, Highest))))
  {
    hide Tokens, ParseToks, Plain, Literal;
    var x, y := Tokens(level, n).value, Tokens(level, t).value;
    TokensJoin(level, n, "." + t);
    DelimiterReads(level, '.', t);
    assert Tokens(level, n + ("." + t)) == Ok(x + ([DOT] + y));
    ToksParse(level, x, y);
  }

  lemma ToksParse(level: Level, x: seq<Tok>, y: seq<Tok>)
    requires Plain(x) && Plain(y)
    ensures ParseToks(level, x + ([DOT] + y)) ==
            Ok(Spec([], Some(FileName(Literals(x) + [B('.')] + Literals(y), Highest))))
  {
    hide Dots, Literal, Bracket, Plain;
    var ts := x + ([DOT] + y);
    OneDotOnly(x, y);
    DotsOne(ts, |x|);
    assert ts[|x|] in ts;
    assert Literals(ts) == Literals(x) + [Literal(DOT)] + Literals(y);
    DotItself();
  }

  lemma OneDotOnly(x: seq<Tok>, y: seq<Tok>)
    requires Plain(x) && Plain(y)
    ensures var ts := x + ([DOT] + y);
      && (forall i | 0 <= i < |ts| && i != |x| :: ts[i] != DOT) && (forall t <- ts :: !Bracket(t)) && SEMI !in ts
      && Undeviced(ts) == ts && !Opens(ts)
  {
    var ts := x + ([DOT] + y);
    forall i | 0 <= i < |ts| && i != |x|
      ensures ts[i] != DOT
    {
      if i < |x| { assert ts[i] in x; } else { assert ts[i] in y; }
    }
    assert ts[0] in ts;
    assert Bracket(Sep(B('['))) && Bracket(Sep(B('<'))) && Bracket(Sep(B(':')));
  }

  lemma DotItself()
    ensures Literal(DOT) == B('.')
  {
  }
}
