/** Integer bit arithmetic as the builders use it: two's complement on unbounded integers. */
module Bits {

  type pos = x: int | x > 0 witness 1

  /** A power of two, the only sizes the builders align to. */
  predicate PowerOfTwo(n: int)
    decreases n
  {
    n == 1 || (n > 1 && n % 2 == 0 && PowerOfTwo(n / 2))
  }

  /** `a & b` for a two's complement `a` of any width and a non-negative mask `b`. */
  function And(a: int, b: nat): (r: nat)
    decreases b, a
  {
    if b == 0 then 0 else 2 * And(a / 2, b / 2) + (a % 2) * (b % 2)
  }

  /** `^x`, the bitwise complement. */
  function Complement(x: int): int {
    -x - 1
  }

  /** The builders' `((^x) + 1) & (size - 1)`. */
  function AlignSize(x: int, size: int): nat
    requires size > 0
  {
    And(Complement(x) + 1, size - 1)
  }

  /** Masking with a power of two less one is the remainder. */
  lemma {:induction false} AndIsModulo(a: int, size: int)
    requires PowerOfTwo(size)
    ensures And(a, size - 1) == a % size
    decreases size
  {
    if size == 1 {
    } else {
      var half := size / 2;
      AndIsModulo(a / 2, half);
      assert (size - 1) / 2 == half - 1 && (size - 1) % 2 == 1;
      HalvingModulo(a, half);
    }
  }

  lemma HalvingModulo(a: int, half: int)
    requires half > 0
    ensures a % (2 * half) == 2 * ((a / 2) % half) + a % 2
  {
    var q, r := (a / 2) / half, (a / 2) % half;
    assert a == 2 * (q * half + r) + a % 2;
    assert a == q * (2 * half) + (2 * r + a % 2) by {
      assert 2 * (q * half) == q * (2 * half);
    }
    ModuloUnique(a, 2 * half, q, 2 * r + a % 2);
  }

  lemma SmallMultiple(k: int, m: int)
    requires -m < k * m < m
    ensures k == 0
  {
  }

  lemma ModuloUnique(a: int, m: int, q: int, r: int)
    requires m > 0 && a == q * m + r && 0 <= r < m
    ensures a % m == r && a / m == q
  {
    assert (a / m - q) * m == r - a % m;
    SmallMultiple(a / m - q, m);
  }

  /** Alignment padding: fewer than `size` bytes, and exactly enough to reach a multiple of `size`. */
  lemma AlignSizeAligns(x: int, size: int)
    requires PowerOfTwo(size)
    ensures AlignSize(x, size) < size
    ensures (x + AlignSize(x, size)) % size == 0
    ensures x % size == 0 <==> AlignSize(x, size) == 0
  {
    AndIsModulo(-x, size);
    NegatedModulo(x, size);
  }

  lemma NegatedModulo(x: int, m: int)
    requires m > 0
    ensures (x + (-x) % m) % m == 0
    ensures x % m == 0 <==> (-x) % m == 0
  {
    var q := (-x) / m;
    assert x + (-x) % m == (-q) * m + 0;
    ModuloUnique(x + (-x) % m, m, -q, 0);
    if x % m == 0 {
      assert -x == (-(x / m)) * m + 0;
      ModuloUnique(-x, m, -(x / m), 0);
    }
  }

  /** Of two powers of two the smaller divides every multiple of the larger. */
  lemma {:induction false} SmallerDivides(small: int, large: int, x: int)
    requires PowerOfTwo(small) && PowerOfTwo(large) && small <= large
    requires x % large == 0
    ensures x % small == 0
    decreases small
  {
    if small == 1 {
    } else {
      assert large > 1;
      HalvingModulo(x, large / 2);
      HalvingModulo(x, small / 2);
      SmallerDivides(small / 2, large / 2, x / 2);
    }
  }

  lemma AddMultiples(x: int, y: int, m: int)
    requires m > 0 && x % m == 0
    ensures (x + y) % m == y % m
    ensures (y - x) % m == y % m
  {
    var q := x / m;
    assert x == q * m;
    assert x + y == (q + y / m) * m + y % m by { assert (q + y / m) * m == q * m + (y / m) * m; }
    ModuloUnique(x + y, m, q + y / m, y % m);
    assert y - x == (y / m - q) * m + y % m by { assert (y / m - q) * m == (y / m) * m - q * m; }
    ModuloUnique(y - x, m, y / m - q, y % m);
  }
}
