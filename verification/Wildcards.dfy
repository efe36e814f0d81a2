/** Wildcard matching of file names.  A pattern holds the marks ANY, for `*`,
    and ONE, for `%` and `?`; every other character stands for itself,
    case-blind in ISO Latin-1.  The matcher is iterative and returns only to
    the last ANY it passed; it is proved to decide the declarative relation. */
module Wildcards {

  newtype Char16 = x: int | 0 <= x < 0x1_0000

  const ANY: Char16 := 1
  const ONE: Char16 := 2
  const DOT: Char16 := 0x2e

  /** ISO Latin-1 uppercase. */
  function Upcase(c: Char16): Char16 {
    if 0x61 <= c <= 0x7a || 0xe0 <= c <= 0xf6 || 0xf8 <= c <= 0xfe then c - 0x20 else c
  }

  // The lower and the upper case of one letter, plain or accented.
  predicate Cases(lower: Char16, upper: Char16) {
    (0x41 <= upper <= 0x5a || (0xc0 <= upper <= 0xde && upper != 0xd7)) && lower == upper + 0x20
  }

  /** Characters are taken as equal when they are the same or the two cases of a letter, and
      no others are. */
  lemma UpcaseIs(a: Char16, b: Char16)
    ensures Upcase(a) == Upcase(b) <==> a == b || Cases(a, b) || Cases(b, a)
  {
  }

  /** One pattern character other than ANY against one character. */
  predicate Accepts(p: Char16, c: Char16) {
    p == ONE || (p != ANY && Upcase(p) == Upcase(c))
  }

  /** The relation: ANY stands for any string, ONE for any character. */
  ghost predicate Matches(p: seq<Char16>, s: seq<Char16>)
    decreases |p|
  {
    if p == [] then s == []
    else if p[0] == ANY then exists k :: 0 <= k <= |s| && Matches(p[1..], s[k..])
    else s != [] && Accepts(p[0], s[0]) && Matches(p[1..], s[1..])
  }

  // A piece of pattern without ANY, character by character.
  ghost predicate Fits(p: seq<Char16>, s: seq<Char16>) {
    |p| == |s| && forall i :: 0 <= i < |p| ==> p[i] != ANY && Accepts(p[i], s[i])
  }

  // What is left to do splits off a piece without ANY.
  lemma {:induction false} MatchesSplit(p: seq<Char16>, n: nat, s: seq<Char16>)
    requires n <= |p| && ANY !in p[..n]
    ensures Matches(p, s) <==> n <= |s| && Fits(p[..n], s[..n]) && Matches(p[n..], s[n..])
    decreases n
  {
    if n == 0 {
      assert p[0..] == p && s[0..] == s;
    } else {
      assert p[0] == p[..n][0];
      if s != [] {
        var q, t := p[1..], s[1..];
        assert q[..n - 1] == p[..n][1..];
        MatchesSplit(q, n - 1, t);
        assert q[n - 1..] == p[n..];
        if n <= |s| {
          assert t[n - 1..] == s[n..];
          assert q[..n - 1] == p[..n][1..] && t[..n - 1] == s[..n][1..];
          assert Fits(p[..n], s[..n]) <==> Accepts(p[0], s[0]) && Fits(q[..n - 1], t[..n - 1]) by {
            forall i | 0 <= i < n && Accepts(p[0], s[0]) && Fits(q[..n - 1], t[..n - 1])
              ensures p[..n][i] != ANY && Accepts(p[..n][i], s[..n][i])
            {
              if i > 0 { assert q[..n - 1][i - 1] == p[..n][i]; }
            }
          }
        }
      }
    }
  }

  // A pattern that starts with ANY matches more of whatever it matches.
  lemma AnySkips(p: seq<Char16>, s: seq<Char16>, from: nat, to: nat)
    requires p != [] && p[0] == ANY && from <= to <= |s|
    requires Matches(p, s[to..])
    ensures Matches(p, s[from..])
  {
    var k :| 0 <= k <= |s[to..]| && Matches(p[1..], s[to..][k..]);
    assert s[to..][k..] == s[from..][to - from + k..];
  }

  lemma {:induction false} JoinParts(p: seq<Char16>, q: seq<Char16>, s: seq<Char16>) returns (k: nat)
    requires Matches(p + q, s)
    ensures k <= |s| && Matches(p, s[..k]) && Matches(q, s[k..])
    decreases |p|
  {
    hide Accepts;
    if p == [] {
      assert p + q == q && s[0..] == s && s[..0] == [];
      return 0;
    }
    var r := p[1..];
    assert (p + q)[1..] == r + q && (p + q)[0] == p[0];
    var j := if p[0] == ANY then (var j :| 0 <= j <= |s| && Matches(r + q, s[j..]); j) else 1;
    k := JoinParts(r, q, s[j..]);
    assert s[..j + k][j..] == s[j..][..k] && s[j + k..] == s[j..][k..];
    k := j + k;
  }

  lemma {:induction false} PartsJoin(p: seq<Char16>, q: seq<Char16>, s: seq<Char16>, k: nat)
    requires k <= |s| && Matches(p, s[..k]) && Matches(q, s[k..])
    ensures Matches(p + q, s)
    decreases |p|
  {
    hide Accepts;
    if p == [] {
      assert p + q == q && s[0..] == s;
    } else {
      var r := p[1..];
      assert (p + q)[1..] == r + q && (p + q)[0] == p[0];
      var j := if p[0] == ANY then (var j :| 0 <= j <= k && Matches(r, s[..k][j..]); j) else 1;
      assert s[j..][..k - j] == s[..k][j..] && s[j..][k - j..] == s[k..];
      PartsJoin(r, q, s[j..], k - j);
    }
  }

  /** A pattern's pieces match in turn. */
  lemma MatchesJoin(p: seq<Char16>, q: seq<Char16>, s: seq<Char16>)
    ensures Matches(p + q, s) <==> exists k :: 0 <= k <= |s| && Matches(p, s[..k]) && Matches(q, s[k..])
  {
    hide Matches;
    if Matches(p + q, s) {
      var k := JoinParts(p, q, s);
    }
    if k :| 0 <= k <= |s| && Matches(p, s[..k]) && Matches(q, s[k..]) {
      PartsJoin(p, q, s, k);
    }
  }

  /** What one character of a pattern stands for. */
  lemma MatchesOne(c: Char16, s: seq<Char16>)
    ensures Matches([c], s) <==>
      c == 1 || (|s| == 1 && (c == 2 || s[0] == c || Cases(s[0], c) || Cases(c, s[0])))
  {
    assert [c][1..] == [];
    if c == ANY {
      assert s[|s|..] == [];
    } else if |s| >= 1 {
      UpcaseIs(c, s[0]);
    }
  }

  // The retries left: the last ANY, at star, taking more than up to mark.
  ghost predicate Retries(p: seq<Char16>, s: seq<Char16>, star: int, mark: nat)
    requires star < |p|
  {
    star >= 0 && exists k :: mark < k <= |s| && Matches(p[star + 1..], s[k..])
  }

  // Passing an ANY makes the retries of the one before it needless.
  lemma LastAnyIsEnough(p: seq<Char16>, s: seq<Char16>, star: int, mark: nat, pi: nat, si: nat)
    requires star < pi < |p| && p[pi] == ANY && si <= |s|
    requires star >= 0 ==> ANY !in p[star + 1..pi] && si == mark + (pi - star - 1)
    requires Retries(p, s, star, mark)
    ensures Matches(p[pi..], s[si..])
  {
    var k :| mark < k <= |s| && Matches(p[star + 1..], s[k..]);
    var n := pi - star - 1;
    assert p[star + 1..][..n] == p[star + 1..pi];
    MatchesSplit(p[star + 1..], n, s[k..]);
    assert p[star + 1..][n..] == p[pi..] && s[k..][n..] == s[k + n..];
    AnySkips(p[pi..], s, si, k + n);
  }

  /** The iterative matcher decides the relation, for every pattern and
      every name. */
  method Glob(p: seq<Char16>, s: seq<Char16>) returns (matched: bool)
    ensures matched <==> Matches(p, s)
  {
    hide Matches, Retries;
    var pi, si, star, mark := 0, 0, -1, 0;
    assert p[0..] == p && s[0..] == s;
    NoStar(p, s, star, mark);
    while si < |s|
      invariant 0 <= pi <= |p| && 0 <= si <= |s| && -1 <= star < |p| && star < pi && 0 <= mark <= si
      invariant star >= 0 ==> si == mark + (pi - star - 1) && ANY !in p[star + 1..pi]
      invariant Matches(p, s) <==> Matches(p[pi..], s[si..]) || Retries(p, s, star, mark)
      decreases |s| - mark, |p| - star, |s| - si
    {
      if pi < |p| && Accepts(p[pi], s[si]) {
        LiteralTakes(p, s, pi, si);
        assert star >= 0 ==> p[star + 1..pi + 1] == p[star + 1..pi] + [p[pi]];
        pi, si := pi + 1, si + 1;
      } else if pi < |p| && p[pi] == ANY {
        if Retries(p, s, star, mark) {
          NoStar(p, s, star, mark);
          LastAnyIsEnough(p, s, star, mark, pi, si);
        }
        AnyTakes(p, s, pi, si);
        star, mark := pi, si;
        pi := pi + 1;
      } else if star >= 0 {
        LiteralTakes(p, s, pi, si);
        NextRetry(p, s, star, mark);
        pi, mark := star + 1, mark + 1;
        si := mark;
      } else {
        LiteralTakes(p, s, pi, si);
        NoStar(p, s, star, mark);
        return false;
      }
    }
    OnlyAnysLeft(p[pi..], s[si..]);
    if star >= 0 {
      NoRetriesAtEnd(p, s, star, mark, pi);
    }
    NoStar(p, s, star, mark);
    matched := forall c | c in p[pi..] :: c == ANY;
  }

  lemma NoStar(p: seq<Char16>, s: seq<Char16>, star: int, mark: nat)
    requires star < |p|
    ensures star < 0 ==> !Retries(p, s, star, mark)
  {
  }

  lemma LiteralTakes(p: seq<Char16>, s: seq<Char16>, pi: nat, si: nat)
    requires pi <= |p| && si < |s| && (pi < |p| ==> p[pi] != ANY)
    ensures Matches(p[pi..], s[si..]) <==> pi < |p| && Accepts(p[pi], s[si]) && Matches(p[pi + 1..], s[si + 1..])
  {
    if pi < |p| {
      assert p[pi..][1..] == p[pi + 1..] && s[si..][1..] == s[si + 1..];
    }
  }

  lemma AnyTakes(p: seq<Char16>, s: seq<Char16>, pi: nat, si: nat)
    requires pi < |p| && p[pi] == ANY && si <= |s|
    ensures Matches(p[pi..], s[si..]) <==> Matches(p[pi + 1..], s[si..]) || Retries(p, s, pi, si)
  {
    assert p[pi..][1..] == p[pi + 1..];
    if Matches(p[pi..], s[si..]) {
      var k :| 0 <= k <= |s[si..]| && Matches(p[pi..][1..], s[si..][k..]);
      assert s[si..][k..] == s[si + k..];
    }
    if Matches(p[pi + 1..], s[si..]) {
      assert s[si..][0..] == s[si..];
    }
    if Retries(p, s, pi, si) {
      var k :| si < k <= |s| && Matches(p[pi + 1..], s[k..]);
      assert s[si..][k - si..] == s[k..];
    }
  }

  lemma NextRetry(p: seq<Char16>, s: seq<Char16>, star: nat, mark: nat)
    requires star < |p| && mark < |s|
    ensures Retries(p, s, star, mark) <==> Matches(p[star + 1..], s[mark + 1..]) || Retries(p, s, star, mark + 1)
  {
  }

  // Once the name is used up, a piece that reached its end fits nowhere later.
  lemma NoRetriesAtEnd(p: seq<Char16>, s: seq<Char16>, star: nat, mark: nat, pi: nat)
    requires star < pi <= |p| && ANY !in p[star + 1..pi] && mark + (pi - star - 1) == |s|
    ensures !Retries(p, s, star, mark)
  {
    var n := pi - star - 1;
    assert p[star + 1..][..n] == p[star + 1..pi];
    forall k | mark < k <= |s|
      ensures !Matches(p[star + 1..], s[k..])
    {
      MatchesSplit(p[star + 1..], n, s[k..]);
    }
  }

  lemma {:induction false} OnlyAnysLeft(p: seq<Char16>, s: seq<Char16>)
    requires s == []
    ensures Matches(p, s) <==> forall c | c in p :: c == ANY
  {
    if p != [] {
      OnlyAnysLeft(p[1..], s);
      assert forall c :: c in p <==> c == p[0] || c in p[1..] by { assert p == [p[0]] + p[1..]; }
      if p[0] == ANY {
        assert s[0..] == s;
        if Matches(p, s) {
          var k :| 0 <= k <= |s| && Matches(p[1..], s[k..]);
          assert s[k..] == s;
        }
      } else {
        assert p[0] in p;
      }
    }
  }

  // ---------------------------------------------------------------------
  // Names and types are matched separately, split at the last dot
  // ---------------------------------------------------------------------

  ghost predicate SplitAtLastDot(s: seq<Char16>, at: nat) {
    if at < |s| then s[at] == DOT && DOT !in s[at + 1..] else at == |s| && DOT !in s
  }

  method LastDot(s: seq<Char16>) returns (at: nat)
    ensures SplitAtLastDot(s, at)
  {
    var i := |s|;
    while i > 0
      invariant 0 <= i <= |s| && DOT !in s[i..]
    {
      if s[i - 1] == DOT {
        return i - 1;
      }
      assert s[i - 1..] == [s[i - 1]] + s[i..];
      i := i - 1;
    }
    assert s[0..] == s;
    return |s|;
  }

  /** The name and the type match the pattern's, each on its own, so that no
      wildcard reaches across the dot between them. */
  method MatchesName(pattern: seq<Char16>, name: seq<Char16>) returns (matched: bool)
    ensures exists i: nat, j: nat :: SplitAtLastDot(pattern, i) && SplitAtLastDot(name, j) &&
              (matched <==> Matches(pattern[..i], name[..j]) && Matches(pattern[i..], name[j..]))
  {
    var i := LastDot(pattern);
    var j := LastDot(name);
    var first := Glob(pattern[..i], name[..j]);
    matched := false;
    if first {
      matched := Glob(pattern[i..], name[j..]);
    }
  }
}
