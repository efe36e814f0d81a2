/** Facts about integer division and powers of two that the models share. */
module Numbers {

  lemma DivModUnique(x: int, q: int, r: int, b: int)
    requires 0 <= r < b && x == q * b + r
    ensures x / b == q && x % b == r
  {
    var k := x / b - q;
    assert k * b == r - x % b;
    assert k > 0 ==> k * b >= b;
    assert k < 0 ==> k * b <= -b;
  }

  lemma ModAddMultiple(x: int, n: int, b: int)
    requires b > 0
    ensures (x + n * b) % b == x % b && (x + n * b) / b == x / b + n
  {
    assert x + n * b == (x / b + n) * b + x % b;
    DivModUnique(x + n * b, x / b + n, x % b, b);
  }

  function Pow2(n: nat): (r: nat)
    ensures r > n
  {
    if n == 0 then 1 else 2 * Pow2(n - 1)
  }

  predicate Bit(x: int, k: nat) {
    x / Pow2(k) % 2 == 1
  }

  lemma HalfFirst(x: int, p: nat)
    requires p > 0
    ensures x / (2 * p) == x / 2 / p
  {
    var y := x / 2;
    assert y == y / p * p + y % p && x == 2 * y + x % 2;
    assert x == y / p * (2 * p) + (2 * (y % p) + x % 2);
    DivModUnique(x, y / p, 2 * (y % p) + x % 2, 2 * p);
  }

  lemma BitBelow(x: int, k: nat)
    requires k > 0
    ensures Bit(x, k) == Bit(x / 2, k - 1)
  {
    HalfFirst(x, Pow2(k - 1));
  }

  lemma {:induction false} BitUp(x: int, n: nat, k: nat)
    ensures Bit(x / Pow2(n), k) == Bit(x, k + n)
    decreases n
  {
    hide Bit;
    if n > 0 {
      BitBelow(x, k + n);
      BitUp(x / 2, n - 1, k);
      HalfFirst(x, Pow2(n - 1));
    }
  }

  lemma DivDiv(x: int, u: int, p: int)
    requires u > 0 && p > 0
    ensures u * p > 0 && x / (u * p) == x / u / p
  {
    var y, r := x / u, x % u + u * (x / u % p);
    assert y == p * (y / p) + y % p;
    assert x == u * y + x % u;
    Split(u, p, y / p, y % p);
    Least(y % p, p - 1, u);
    assert u * (p - 1) == u * p - u;
    DivModUnique(x, y / p, r, u * p);
  }

  lemma Least(a: int, b: int, u: int)
    requires a <= b && u > 0
    ensures u * a <= u * b
  {
  }

  lemma Split(u: int, p: int, q: int, d: int)
    ensures u * (p * q + d) == q * (u * p) + u * d
  {
  }
}
