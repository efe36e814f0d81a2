/** What the operators of an expression do, apart from how they are computed: division with
    its remainder on signed values, and the rest bit by bit. */
module Arithmetic {
  import opened Numbers
  import opened Relocation

  // ---------------------------------------------------------------------
  // Signed values
  // ---------------------------------------------------------------------

  lemma SignedWrap(v: int)
    requires -0x8000_0000_0000_0000 <= v < 0x8000_0000_0000_0000
    ensures Signed(Wrap(v)) == v
  {
    if v < 0 {
      ModAddMultiple(v, 1, WORD);
    }
  }

  // Division that truncates toward zero, with its remainder.
  predicate Divides(x: int, y: int, q: int, r: int) {
    x == q * y + r && Magnitude(r) < Magnitude(y) && (r == 0 || (r < 0 <==> x < 0))
  }

  function Quotient(x: int, y: int): int
    requires y != 0
  {
    var q := Magnitude(x) / Magnitude(y);
    if (x < 0) == (y < 0) then q else -q
  }

  function Remainder(x: int, y: int): int
    requires y != 0
  {
    var r := Magnitude(x) % Magnitude(y);
    if x < 0 then -r else r
  }

  lemma Truncates(x: int, y: int)
    requires y != 0
    ensures Divides(x, y, Quotient(x, y), Remainder(x, y))
  {
    var a: int, b: int := Magnitude(x), Magnitude(y);
    var q: int, r: int := a / b, a % b;
    assert a == q * b + r;
    MinusTimes(q, b);
  }

  lemma MinusTimes(q: int, b: int)
    ensures (-q) * b == -(q * b) && q * (-b) == -(q * b) && (-q) * (-b) == q * b
  {
  }

  lemma HalvesAtLeast(a: nat, b: nat)
    requires b > 1
    ensures 2 * (a / b) <= a
  {
    var q := a / b;
    assert q * b <= a;
    AtLeastTwice(q, b);
  }

  lemma AtLeastTwice(q: nat, b: nat)
    requires b > 1
    ensures 2 * q <= q * b
  {
  }

  const TOP := 0x8000_0000_0000_0000

  // The quotient overflows in one case only.
  lemma Fits(x: int, y: int)
    requires -TOP <= x < TOP && -TOP <= y < TOP && y != 0
    ensures !(x == -TOP && y == -1) ==> -TOP <= Quotient(x, y) < TOP
    ensures -TOP < Remainder(x, y) < TOP
  {
    if Magnitude(y) == 1 {
      assert Magnitude(x) / 1 == Magnitude(x);
    } else {
      HalvesAtLeast(Magnitude(x), Magnitude(y));
    }
  }

  /** Quotient and remainder make the dividend again, for every divisor but zero, unless
      the quotient is 2^63, which wraps. */
  lemma DivRem(a: Word, b: Word)
    ensures b == 0 ==> Arith(OpDiv, a, b) == Arith(OpRem, a, b) == Err(DivisionByZero)
    ensures b != 0 ==> Arith(OpDiv, a, b).Ok? && Arith(OpRem, a, b).Ok?
    ensures b != 0 ==> var q, r := Arith(OpDiv, a, b).value, Arith(OpRem, a, b).value;
      if a == 0x8000_0000_0000_0000 && b == 0xffff_ffff_ffff_ffff then q == a && r == 0
      else Divides(Signed(a), Signed(b), Signed(q), Signed(r))
  {
    if b != 0 {
      hide Quotient, Remainder, Wrap, Divides, Div, Rem;
      var x, y := Signed(a), Signed(b);
      ByParts(a, b);
      Truncates(x, y);
      Fits(x, y);
      SignedWrap(Remainder(x, y));
      if x == -TOP && y == -1 {
        Overflows();
      } else {
        SignedWrap(Quotient(x, y));
      }
    }
  }

  lemma ByParts(a: Word, b: Word)
    requires b != 0
    ensures Signed(b) != 0 && Div(a, b) == Wrap(Quotient(Signed(a), Signed(b)))
    ensures Rem(a, b) == Wrap(Remainder(Signed(a), Signed(b)))
  {
  }

  lemma Overflows()
    ensures Wrap(Quotient(-TOP, -1)) == TOP && Wrap(Remainder(-TOP, -1)) == 0
  {
  }

  // ---------------------------------------------------------------------
  // Bits
  // ---------------------------------------------------------------------

  lemma {:induction false} Pow2Add(m: nat, n: nat)
    ensures Pow2(m + n) == Pow2(m) * Pow2(n)
  {
    if n > 0 {
      Pow2Add(m, n - 1);
      assert m + n - 1 == m + (n - 1);
      Doubles(Pow2(m), Pow2(n - 1));
    }
  }

  lemma Doubles(a: int, b: int)
    ensures 2 * (a * b) == a * (2 * b)
  {
  }

  lemma Eighth()
    ensures Pow2(8) == 0x100 && Pow2(1) == 2
  {
  }

  lemma WordIs()
    ensures Pow2(64) == WORD && 2 * Pow2(63) == WORD
  {
    hide Pow2;
    Eighth();
    Pow2Add(8, 8);
    Pow2Add(16, 16);
    Pow2Add(32, 32);
    Pow2Add(63, 1);
  }

  // The bits of a word are those of whatever it wraps.
  lemma WrapBit(x: int, k: nat)
    requires k < 64
    ensures Bit(Wrap(x), k) == Bit(x, k)
  {
    hide Bit;
    WordIs();
    LowBit(x, 64, k);
  }

  lemma {:induction false} LowBit(x: int, n: nat, k: nat)
    requires k < n
    ensures Bit(x % Pow2(n), k) == Bit(x, k)
    decreases k
  {
    hide Bit;
    var p := Pow2(n - 1);
    HalfFirst(x, p);
    var y := x / 2;
    assert x == 2 * y + x % 2 && y == y / p * p + y % p;
    assert x == y / p * (2 * p) + (2 * (y % p) + x % 2);
    DivModUnique(x, y / p, 2 * (y % p) + x % 2, 2 * p);
    DivModUnique(x % Pow2(n), y % p, x % 2, 2);
    if k == 0 {
      BitZero(x);
      BitZero(x % Pow2(n));
    } else {
      BitBelow(x, k);
      BitBelow(x % Pow2(n), k);
      LowBit(y, n - 1, k - 1);
    }
  }

  lemma BitZero(x: int)
    ensures Bit(x, 0) <==> x % 2 == 1
  {
  }

  lemma {:induction false} BitwiseBit(op: (bool, bool) -> bool, a: nat, b: nat, n: nat, k: nat)
    requires k < n
    ensures Bit(Bitwise(op, a, b, n), k) == op(Bit(a, k), Bit(b, k))
    decreases n
  {
    hide Bit;
    var c := if op(a % 2 == 1, b % 2 == 1) then 1 else 0;
    var x := Bitwise(op, a, b, n);
    DivModUnique(x, Bitwise(op, a / 2, b / 2, n - 1), c, 2);
    if k == 0 {
      BitZero(a);
      BitZero(b);
      BitZero(x);
    } else {
      BitwiseBit(op, a / 2, b / 2, n - 1, k - 1);
      BitBelow(a, k);
      BitBelow(b, k);
      BitBelow(x, k);
    }
  }

  // A bit of what an operator gives.
  ghost predicate Gives(op: Op, a: Word, b: Word, k: nat) {
    Arith(op, a, b).Ok? && Bit(Arith(op, a, b).value, k)
  }

  /** AND, OR and XOR, bit by bit. */
  lemma LogicBits(a: Word, b: Word, k: nat)
    requires k < 64
    ensures Gives(OpAnd, a, b, k) <==> Bit(a, k) && Bit(b, k)
    ensures Gives(OpOr, a, b, k) <==> Bit(a, k) || Bit(b, k)
    ensures Gives(OpXor, a, b, k) <==> Bit(a, k) != Bit(b, k)
  {
    hide Bit, Wrap, Bitwise;
    WrapBit(Bitwise((x, y) => x && y, a, b, 64), k);
    WrapBit(Bitwise((x, y) => x || y, a, b, 64), k);
    WrapBit(Bitwise((x, y) => x != y, a, b, 64), k);
    BitwiseBit((x, y) => x && y, a, b, 64, k);
    BitwiseBit((x, y) => x || y, a, b, 64, k);
    BitwiseBit((x, y) => x != y, a, b, 64, k);
  }

  /** And complement. */
  lemma NotBit(a: Word, k: nat)
    requires k < 64
    ensures Bit(Not(a), k) <==> !Bit(a, k)
  {
    hide Bit;
    WrapBit(-1 - a, k);
    ModAddMultiple(-1 - a, 1, WORD);
    Complement(a, k);
  }

  lemma {:induction false} Complement(x: int, k: nat)
    ensures Bit(-1 - x, k) <==> !Bit(x, k)
    decreases k
  {
    hide Bit;
    assert (-1 - x) / 2 == -1 - x / 2;
    if k == 0 {
      BitZero(x);
      BitZero(-1 - x);
    } else {
      BitBelow(x, k);
      BitBelow(-1 - x, k);
      Complement(x / 2, k - 1);
    }
  }

  lemma {:induction false} UpBit(x: int, n: nat, k: nat)
    ensures Bit(x * Pow2(n), k) <==> k >= n && Bit(x, k - n)
  {
    hide Bit;
    if n == 0 {
      assert x * 1 == x;
    } else {
      var y := x * Pow2(n - 1);
      Doubles(x, Pow2(n - 1));
      assert x * Pow2(n) == 2 * y;
      if k == 0 {
        BitZero(2 * y);
      } else {
        BitBelow(2 * y, k);
        UpBit(x, n - 1, k - 1);
      }
    }
  }

  // Above a number's size, its bits are its sign's.
  lemma HighBit(x: int, n: nat, k: nat)
    requires 0 - Pow2(n) <= x < Pow2(n) && k >= n
    ensures Bit(x, k) <==> x < 0
  {
    Pow2Add(n, k - n);
    AtLeastOnce(Pow2(n), Pow2(k - n));
    if x < 0 {
      DivModUnique(x, -1, x + Pow2(k), Pow2(k));
    } else {
      DivModUnique(x, 0, x, Pow2(k));
    }
  }

  lemma AtLeastOnce(a: nat, b: nat)
    requires b > 0
    ensures a <= a * b
  {
  }

  lemma ShiftBits(a: Word, n: int, k: nat)
    requires k < 64
    ensures var s := n % 64;
      && (Bit(Shl(a, n), k) <==> k >= s && Bit(a, k - s))
      && (Bit(Shr(a, n), k) <==> k + s < 64 && Bit(a, k + s))
      && (Bit(ShrSigned(a, n), k) <==> Bit(a, if k + s < 64 then k + s else 63))
  {
    hide Bit, Wrap;
    var s := n % 64;
    WordIs();
    WrapBit(a * Pow2(s), k);
    UpBit(a, s, k);
    WrapBit(a / Pow2(s), k);
    BitUp(a, s, k);
    WrapBit(Signed(a) / Pow2(s), k);
    BitUp(Signed(a), s, k);
    SignBits(a, k + s);
  }

  /** Shifts move the bits, by a count modulo 64, with zeros coming in.  The arithmetic
      shift's count is signed: a negative one shifts right, with copies of the sign. */
  lemma Shifts(a: Word, b: Word, k: nat)
    requires k < 64
    ensures Gives(OpShl, a, b, k) <==> k >= b % 64 && Bit(a, k - b % 64)
    ensures Gives(OpShr, a, b, k) <==> k + b % 64 < 64 && Bit(a, k + b % 64)
    ensures b < 0x8000_0000_0000_0000 ==> (Gives(OpAsh, a, b, k) <==> k >= b % 64 && Bit(a, k - b % 64))
    ensures b >= 0x8000_0000_0000_0000 ==>
      var s := (0x1_0000_0000_0000_0000 - b) % 64;
      Gives(OpAsh, a, b, k) <==> Bit(a, if k + s < 64 then k + s else 63)
  {
    hide Bit, Shl, Shr, ShrSigned;
    ShiftBits(a, b, k);
    ShiftBits(a, 0x1_0000_0000_0000_0000 - b, k);
  }

  /** Sums, differences and products, on signed values: what they are, unless they wrap. */
  lemma RingOps(a: Word, b: Word)
    ensures var x, y := Signed(a), Signed(b);
      && (-TOP <= x + y < TOP ==> Arith(OpAdd, a, b).Ok? && Signed(Arith(OpAdd, a, b).value) == x + y)
      && (-TOP <= x - y < TOP ==> Arith(OpSub, a, b).Ok? && Signed(Arith(OpSub, a, b).value) == x - y)
      && (-TOP <= x * y < TOP ==> Arith(OpMul, a, b).Ok? && Signed(Arith(OpMul, a, b).value) == x * y)
  {
    var x, y := Signed(a), Signed(b);
    SameWrap(a + b, x + y, if a == x then if b == y then 0 else 1 else if b == y then 1 else 2);
    SameWrap(a - b, x - y, if a == x then if b == y then 0 else -1 else if b == y then 1 else 0);
    MulWraps(a, b);
    if -TOP <= x + y < TOP { SignedWrap(x + y); }
    if -TOP <= x - y < TOP { SignedWrap(x - y); }
    if -TOP <= x * y < TOP { SignedWrap(x * y); }
  }

  lemma SameWrap(v: int, w: int, n: int)
    requires v == w + n * WORD
    ensures Wrap(v) == Wrap(w)
  {
    ModAddMultiple(w, n, WORD);
  }

  lemma MulWraps(a: Word, b: Word)
    ensures Wrap(a * b) == Wrap(Signed(a) * Signed(b))
  {
    var x, y := Signed(a), Signed(b);
    var i, j := if a == x then 0 else 1, if b == y then 0 else 1;
    Expand(x, i, y, j);
    SameWrap(a * b, x * y, i * y + j * x + i * j * WORD);
  }

  lemma Expand(x: int, i: int, y: int, j: int)
    ensures (x + i * WORD) * (y + j * WORD) == x * y + (i * y + j * x + i * j * WORD) * WORD
  {
  }

  lemma SignBits(a: Word, k: nat)
    ensures k >= 64 ==> !Bit(a, k)
    ensures Bit(Signed(a), k) <==> Bit(a, if k < 64 then k else 63)
  {
    hide Bit;
    WordIs();
    if k >= 64 {
      HighBit(a, 64, k);
      HighBit(Signed(a), 63, k);
      HighBit(Signed(a), 63, 63);
      WrapSigned(a);
      WrapBit(Signed(a), 63);
    } else {
      WrapSigned(a);
      WrapBit(Signed(a), k);
    }
  }

  lemma WrapSigned(a: Word)
    ensures Wrap(Signed(a)) == a
  {
    ModAddMultiple(Signed(a), 1, WORD);
  }

  /** And a word is its bits. */
  lemma {:induction false} BitsTell(a: nat, b: nat, n: nat)
    requires a < Pow2(n) && b < Pow2(n) && forall k | 0 <= k < n :: Bit(a, k) == Bit(b, k)
    ensures a == b
    decreases n
  {
    hide Bit;
    if n > 0 {
      BitZero(a);
      BitZero(b);
      assert Bit(a, 0) == Bit(b, 0);
      forall k | 0 <= k < n - 1
        ensures Bit(a / 2, k) == Bit(b / 2, k)
      {
        BitBelow(a, k + 1);
        BitBelow(b, k + 1);
        assert Bit(a, k + 1) == Bit(b, k + 1);
      }
      BitsTell(a / 2, b / 2, n - 1);
    }
  }
}
