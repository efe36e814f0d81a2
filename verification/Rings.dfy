/** Rings with free-running 32-bit indices: an entry is at its index modulo the
    ring's size, and put minus get, modulo 2^32, is how many there are. */
module Rings {
  import opened Numbers

  const WORD := 0x1_0000_0000

  // The sizes used: both divide 2^32, so that the indices can wrap.
  predicate IsSize(n: nat) { n == 8 || n == 32 }

  function CellOf(get: int, i: int, n: nat): (k: int)
    requires IsSize(n)
    ensures 0 <= k < n
  {
    (get + i) % WORD % n
  }

  /** The ring holds q, oldest first. */
  ghost predicate Ring<T>(cells: seq<T>, get: int, put: int, q: seq<T>, n: nat) {
    && IsSize(n) && |cells| == n && |q| <= n
    && 0 <= get < WORD && put == (get + |q|) % WORD
    && forall i | 0 <= i < |q| :: cells[CellOf(get, i, n)] == q[i]
  }

  lemma CellIs(get: int, i: int, n: nat)
    requires IsSize(n)
    ensures CellOf(get, i, n) == (get + i) % n
  {
    var x := get + i;
    var w := x / WORD;
    if n == 8 {
      ModAddMultiple(x % WORD, w * 0x2000_0000, 8);
    } else {
      ModAddMultiple(x % WORD, w * 0x800_0000, 32);
    }
  }

  // A whole turn apart is the least two entries of the same cell can be.
  lemma CellsApart(get: int, i: int, j: int, n: nat)
    requires IsSize(n) && 0 <= i < j < n
    ensures CellOf(get, i, n) != CellOf(get, j, n)
  {
    CellIs(get, i, n);
    CellIs(get, j, n);
    var a, b := (get + i) / n, (get + j) / n;
    if n == 8 {
      assert j - i == 8 * (b - a) + (get + j) % 8 - (get + i) % 8;
    } else {
      assert j - i == 32 * (b - a) + (get + j) % 32 - (get + i) % 32;
    }
  }

  lemma PutCell<T>(cells: seq<T>, get: int, put: int, q: seq<T>, n: nat)
    requires Ring(cells, get, put, q, n)
    ensures 0 <= put < WORD && put % n == CellOf(get, |q|, n)
    ensures put == get <==> q == []
  {
  }

  /** A new entry goes past the others and overwrites none of them. */
  lemma RingPut<T>(cells: seq<T>, get: int, put: int, q: seq<T>, n: nat, x: T)
    requires Ring(cells, get, put, q, n) && |q| < n
    ensures 0 <= put % n < n && Ring(cells[put % n := x], get, put, q, n)
    ensures Ring(cells[put % n := x], get, (put + 1) % WORD, q + [x], n)
  {
    PutCell(cells, get, put, q, n);
    forall i | 0 <= i < |q|
      ensures cells[put % n := x][CellOf(get, i, n)] == q[i]
    {
      CellsApart(get, i, |q|, n);
    }
    PutNext(get, |q|);
  }

  lemma PutNext(get: int, k: int)
    ensures ((get + k) % WORD + 1) % WORD == (get + k + 1) % WORD
  {
    var x := get + k;
    ModAddMultiple(x % WORD + 1, x / WORD, WORD);
  }

  lemma WrapAgain(get: int, i: int)
    ensures ((get + 1) % WORD + i) % WORD == (get + i + 1) % WORD
  {
    var x := get + 1;
    ModAddMultiple(x % WORD + i, x / WORD, WORD);
  }

  // Publishing an entry already in its cell.
  lemma RingPublish<T>(cells: seq<T>, get: int, put: int, q: seq<T>, n: nat, x: T)
    requires Ring(cells, get, put, q, n) && |q| < n && cells[put % n] == x
    ensures Ring(cells, get, (put + 1) % WORD, q + [x], n)
  {
    RingPut(cells, get, put, q, n, x);
    assert cells[put % n := x] == cells;
  }

  lemma CellShift(get: int, i: int, n: nat)
    requires IsSize(n)
    ensures CellOf((get + 1) % WORD, i, n) == CellOf(get, i + 1, n)
  {
    WrapAgain(get, i);
  }

  lemma FirstCell(get: int, n: nat)
    requires IsSize(n) && 0 <= get < WORD
    ensures CellOf(get, 0, n) == get % n
  {
  }

  /** The oldest entry comes off the front. */
  lemma RingGet<T>(cells: seq<T>, get: int, put: int, q: seq<T>, n: nat)
    requires Ring(cells, get, put, q, n) && q != []
    ensures 0 <= get % n < n && cells[get % n] == q[0]
    ensures Ring(cells, (get + 1) % WORD, put, q[1..], n)
  {
    hide CellOf;
    FirstCell(get, n);
    assert cells[CellOf(get, 0, n)] == q[0];
    forall i | 0 <= i < |q| - 1
      ensures cells[CellOf((get + 1) % WORD, i, n)] == q[1..][i]
    {
      CellShift(get, i, n);
      assert cells[CellOf(get, i + 1, n)] == q[i + 1];
    }
    WrapAgain(get, |q| - 1);
  }
}
