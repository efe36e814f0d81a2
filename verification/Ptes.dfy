/** Page table entries: the valid bit, fault on execute, each mode's read and write
    enables, and the page frame number.  What WRPTE calls well formed is proved to be what a
    protection code gives, and to be what the C's bit test accepts. */
module Ptes {
  import Numbers

  function Bit(pte: int, n: int): bool
    requires 0 <= n < 32
  {
    pte / [0x1, 0x2, 0x4, 0x8, 0x10, 0x20, 0x40, 0x80,
           0x100, 0x200, 0x400, 0x800, 0x1000, 0x2000, 0x4000, 0x8000,
           0x1_0000, 0x2_0000, 0x4_0000, 0x8_0000, 0x10_0000, 0x20_0000, 0x40_0000, 0x80_0000,
           0x100_0000, 0x200_0000, 0x400_0000, 0x800_0000, 0x1000_0000, 0x2000_0000, 0x4000_0000, 0x8000_0000][n]
      % 2 == 1
  }

  function Pfn(pte: int): int {
    pte / 0x1_0000_0000 % 0x1_0000_0000
  }

  predicate CanRead(pte: int, m: int)
    requires 0 <= m < 4
  {
    Bit(pte, 8 + m)
  }

  predicate CanWrite(pte: int, m: int)
    requires 0 <= m < 4
  {
    Bit(pte, 12 + m)
  }

  predicate FaultOnExecute(pte: int) {
    Bit(pte, 3)
  }

  // Valid, with some mode's read enabled.
  predicate Mapped(pte: int) {
    Bit(pte, 0) && exists m | 0 <= m < 4 :: CanRead(pte, m)
  }

  // The enables go down through the modes without a gap, and no mode's writes go
  // further out than its reads.
  predicate WellFormed(pte: int) {
    && (forall m | 0 <= m < 3 ::
          (CanRead(pte, m + 1) ==> CanRead(pte, m)) && (CanWrite(pte, m + 1) ==> CanWrite(pte, m)))
    && (forall m | 0 <= m < 4 :: CanWrite(pte, m) ==> CanRead(pte, m))
  }

  // The bits of the field of four that starts at u.
  lemma FieldBit(x: int, u: int, p: int)
    requires u > 0 && (p == 1 || p == 2 || p == 4 || p == 8)
    ensures x / (u * p) % 2 == x / u % 16 / p % 2
  {
    Numbers.DivDiv(x, u, p);
    Of16(x / u, p);
  }

  lemma Of16(y: int, p: int)
    requires p == 1 || p == 2 || p == 4 || p == 8
    ensures y / p % 2 == y % 16 / p % 2
  {
    var f, h := y % 16, y / 16;
    if p == 1 {
    } else if p == 2 {
      Numbers.ModAddMultiple(f, 8 * h, 2);
      Numbers.ModAddMultiple(f / 2, 4 * h, 2);
    } else if p == 4 {
      Numbers.ModAddMultiple(f, 4 * h, 4);
      Numbers.ModAddMultiple(f / 4, 2 * h, 2);
    } else {
      Numbers.ModAddMultiple(f, 2 * h, 8);
      Numbers.ModAddMultiple(f / 8, h, 2);
    }
  }

  // The read enables and the write enables of a PTE, a bit a mode.
  function Reads(pte: int): (re: int)
    ensures 0 <= re < 16
  {
    pte / 0x100 % 16
  }

  function Writes(pte: int): (we: int)
    ensures 0 <= we < 16
  {
    pte / 0x1000 % 16
  }

  lemma Enables(pte: int)
    ensures (CanRead(pte, 0) <==> Reads(pte) % 2 == 1) && (CanRead(pte, 1) <==> Reads(pte) / 2 % 2 == 1)
    ensures (CanRead(pte, 2) <==> Reads(pte) / 4 % 2 == 1) && (CanRead(pte, 3) <==> Reads(pte) / 8 % 2 == 1)
    ensures (CanWrite(pte, 0) <==> Writes(pte) % 2 == 1) && (CanWrite(pte, 1) <==> Writes(pte) / 2 % 2 == 1)
    ensures (CanWrite(pte, 2) <==> Writes(pte) / 4 % 2 == 1) && (CanWrite(pte, 3) <==> Writes(pte) / 8 % 2 == 1)
  {
    FieldBit(pte, 0x100, 1);
    FieldBit(pte, 0x100, 2);
    FieldBit(pte, 0x100, 4);
    FieldBit(pte, 0x100, 8);
    FieldBit(pte, 0x1000, 1);
    FieldBit(pte, 0x1000, 2);
    FieldBit(pte, 0x1000, 4);
    FieldBit(pte, 0x1000, 8);
  }

  /** The enables of the modes below a. */
  function Below(a: nat): int
    requires a <= 4
  {
    Numbers.Pow2(a) - 1
  }

  lemma BelowIs(a: nat)
    requires a <= 4
    ensures Below(a) == [0, 1, 3, 7, 15][a]
  {
    assert Numbers.Pow2(4) == 2 * Numbers.Pow2(3) == 4 * Numbers.Pow2(2);
  }

  // One of the five.
  predicate Ladder(f: int) {
    f == 0 || f == 1 || f == 3 || f == 7 || f == 15
  }

  lemma LadderBelow(f: int) returns (a: nat)
    requires Ladder(f)
    ensures a <= 4 && f == Below(a)
  {
    a := if f == 0 then 0 else if f == 1 then 1 else if f == 3 then 2 else if f == 7 then 3 else 4;
    BelowIs(a);
  }

  /** Enables a protection code gives: reads from the innermost modes out, and writes from
      there too but no further. */
  predicate Code(re: int, we: int) {
    exists a: nat, b: nat | b <= a <= 4 :: re == Below(a) && we == Below(b)
  }

  lemma CodeIs(re: int, we: int)
    ensures Code(re, we) <==> Ladder(re) && Ladder(we) && we <= re
  {
    hide Below;
    if Code(re, we) {
      var a: nat, b: nat :| b <= a <= 4 && re == Below(a) && we == Below(b);
      BelowIs(a);
      BelowIs(b);
    }
    if Ladder(re) && Ladder(we) && we <= re {
      var a := LadderBelow(re);
      var b := LadderBelow(we);
      BelowIs(a);
      BelowIs(b);
    }
  }

  lemma Nibble(f: int)
    requires 0 <= f < 16
    ensures f == f % 2 + 2 * (f / 2 % 2) + 4 * (f / 4 % 2) + 8 * (f / 8 % 2)
  {
  }

  lemma BelowBits(a: nat, m: nat)
    requires a <= 4 && m < 4
    ensures Below(a) / [1, 2, 4, 8][m] % 2 == 1 <==> m < a
  {
    hide Below;
    BelowIs(a);
  }

  // The C's test of them.
  predicate Test(re: bv8, we: bv8) {
    re & (re + 1) == 0 && we & (we + 1) == 0 && we & !re == 0
  }

  lemma BitsAre(re: bv8, we: bv8)
    requires re < 16 && we < 16
    ensures Test(re, we) <==>
      && (re == 0 || re == 1 || re == 3 || re == 7 || re == 15)
      && (we == 0 || we == 1 || we == 3 || we == 7 || we == 15) && we <= re
  {
  }

  lemma AsBits(n: int)
    requires 0 <= n < 16
    ensures n as bv8 == [0, 1, 2, 3, 4, 5, 6, 7, 8, 9, 10, 11, 12, 13, 14, 15][n]
  {
  }

  lemma TestIs(re: int, we: int)
    requires 0 <= re < 16 && 0 <= we < 16
    ensures Test(re as bv8, we as bv8) <==> Code(re, we)
  {
    hide Code, Test;
    AsBits(re);
    AsBits(we);
    BitsAre(re as bv8, we as bv8);
    CodeIs(re, we);
  }

  /** WRPTE takes the enables a protection code gives and no others. */
  lemma WellFormedIs(pte: int)
    ensures WellFormed(pte) <==> Code(Reads(pte), Writes(pte))
    ensures WellFormed(pte) <==> Test(Reads(pte) as bv8, Writes(pte) as bv8)
  {
    hide Code, Test, CanRead, CanWrite;
    Enables(pte);
    var re, we := Reads(pte), Writes(pte);
    Nibble(re);
    Nibble(we);
    CodeIs(re, we);
    TestIs(re, we);
  }

  lemma MappedIs(pte: int)
    ensures Mapped(pte) <==> pte % 2 == 1 && Reads(pte) != 0
  {
    hide CanRead, Reads, Writes;
    Enables(pte);
    Nibble(Reads(pte));
    assert CanRead(pte, 0) || CanRead(pte, 1) || CanRead(pte, 2) || CanRead(pte, 3) <==> Reads(pte) != 0;
  }

  /** The fields of a PTE, by the numbers the executive builds it from. */
  lemma PteFields(foe: bool, re: int, we: int, pfn: int)
    requires 0 <= re < 16 && 0 <= we < 16 && 0 <= pfn < 0x1_0000_0000
    ensures var pte := 1 + (if foe then 8 else 0) + 0x100 * re + 0x1000 * we + 0x1_0000_0000 * pfn;
      && Bit(pte, 0) && FaultOnExecute(pte) == foe && Reads(pte) == re && Writes(pte) == we && Pfn(pte) == pfn
  {
    var f := if foe then 1 else 0;
    var pte := 1 + 8 * f + 0x100 * re + 0x1000 * we + 0x1_0000_0000 * pfn;
    Numbers.DivModUnique(pte, 4 * f + 0x80 * re + 0x800 * we + 0x8000_0000 * pfn, 1, 2);
    Numbers.DivModUnique(pte, f + 0x20 * re + 0x200 * we + 0x2000_0000 * pfn, 1, 8);
    Numbers.ModAddMultiple(f, 0x10 * re + 0x100 * we + 0x1000_0000 * pfn, 2);
    Numbers.DivModUnique(pte, re + 0x10 * we + 0x100_0000 * pfn, 1 + 8 * f, 0x100);
    Numbers.ModAddMultiple(re, we + 0x10_0000 * pfn, 16);
    Numbers.DivModUnique(pte, we + 0x10_0000 * pfn, 1 + 8 * f + 0x100 * re, 0x1000);
    Numbers.ModAddMultiple(we, 0x1_0000 * pfn, 16);
    Numbers.DivModUnique(pte, pfn, 1 + 8 * f + 0x100 * re + 0x1000 * we, 0x1_0000_0000);
  }

  lemma CodeOpens(pte: int, a: nat, b: nat, m: nat)
    requires b <= a <= 4 && m < 4 && Reads(pte) == Below(a) && Writes(pte) == Below(b)
    ensures (CanRead(pte, m) <==> m < a) && (CanWrite(pte, m) <==> m < b)
  {
    hide Below, CanRead, CanWrite, Reads, Writes;
    Enables(pte);
    BelowBits(a, m);
    BelowBits(b, m);
  }
}
