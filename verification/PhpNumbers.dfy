/**
 Numbers in PHP on a 64-bit platform. An integer is one of 64 bits with sign; whatever is beyond
 becomes a double. Two integers compare exactly; if one of the two is a double, both are compared
 as doubles, so that numbers that are near each other can be equal.
 */
module PhpNumbers {
  import opened Bits
  import opened Codec

  const INT_MIN := -0x8000_0000_0000_0000
  const INT_MAX := 0x7fff_ffff_ffff_ffff

  /** A double is given by its value; none of those that occur here has a fraction. */
  datatype Number = Whole(n: int) | Double(n: int)

  // ---- Doubles ----------------------------------------------------------------

  /** How far apart two neighbouring doubles are at `n`: they have 53 binary digits. */
  function Spacing(n: nat): pos {
    if n < 0x20_0000_0000_0000 then 1 else 2 * Spacing(n / 2)
  }

  /** The nearest multiple of `s`; of two that are equally near, the even one. */
  function RoundToEven(n: nat, s: pos): nat {
    var q, r := n / s, n % s;
    if 2 * r < s || (2 * r == s && q % 2 == 0) then q * s else (q + 1) * s
  }

  /** The double that stands for `n`, as IEEE 754 rounds by default. */
  function Nearest(n: int): int {
    if n < 0 then 0 - RoundToEven(-n, Spacing(-n)) else RoundToEven(n, Spacing(n))
  }

  function AsDouble(a: Number): int {
    match a
    case Whole(n) => Nearest(n)
    case Double(n) => n
  }

  // ---- Comparisons ------------------------------------------------------------

  /** The operator `==`. */
  predicate Equal(a: Number, b: Number) {
    if a.Whole? && b.Whole? then a.n == b.n else AsDouble(a) == AsDouble(b)
  }

  /** The operator `<=`. */
  predicate AtMost(a: Number, b: Number) {
    if a.Whole? && b.Whole? then a.n <= b.n else AsDouble(a) <= AsDouble(b)
  }

  /** The number that a caller passes for the integer `x`. */
  function Argument(x: int): Number {
    if INT_MIN <= x <= INT_MAX then Whole(x) else Double(Nearest(x))
  }

  /** The number that the integer literal `x` stands for; a minus sign is not part of a literal. */
  function Literal(x: int): Number {
    if -INT_MAX <= x <= INT_MAX then Whole(x) else Double(Nearest(x))
  }

  // ---- What the range checks and the comparison with a default come to -------------

  lemma {:induction false} SpacingAt(n: nat, p: pos)
    requires PowerOfTwo(p) && 0x10_0000_0000_0000 * p <= n < 0x20_0000_0000_0000 * p
    ensures Spacing(n) == p
    decreases p
  {
    if p > 1 {
      SpacingAt(n / 2, p / 2);
    }
  }

  lemma {:induction false} SpacingIsSmall(n: nat)
    ensures Spacing(n) <= if n == 0 then 1 else n
    decreases n
  {
    if n >= 0x20_0000_0000_0000 {
      SpacingIsSmall(n / 2);
    }
  }

  lemma RoundIsNear(n: nat, s: pos)
    ensures 2 * n - s <= 2 * RoundToEven(n, s) <= 2 * n + s
  {
    assert n == (n / s) * s + n % s;
    assert (n / s + 1) * s == (n / s) * s + s;
  }

  lemma PowersAre()
    ensures PowerOfTwo(1024) && PowerOfTwo(2048)
  {
    assert PowerOfTwo(1) && PowerOfTwo(2) && PowerOfTwo(4) && PowerOfTwo(8) && PowerOfTwo(16) && PowerOfTwo(32);
    assert PowerOfTwo(64) && PowerOfTwo(128) && PowerOfTwo(256) && PowerOfTwo(512);
  }

  /** Below 2^63, the last 512 integers become 2^63. */
  lemma NearestBelow(x: nat)
    requires x < 0x8000_0000_0000_0000
    ensures Nearest(x) <= 0x8000_0000_0000_0000
    ensures Nearest(x) == 0x8000_0000_0000_0000 <==> x >= 0x7fff_ffff_ffff_fe00
  {
    if x >= 0x4000_0000_0000_0000 {
      PowersAre();
      SpacingAt(x, 1024);
    } else {
      hide Spacing, RoundToEven;
      SpacingIsSmall(x);
      RoundIsNear(x, Spacing(x));
    }
  }

  /** From 2^63 on, the first 1025 integers do. */
  lemma NearestAbove(x: nat)
    requires 0x8000_0000_0000_0000 <= x < 0x1_0000_0000_0000_0000
    ensures Nearest(x) >= 0x8000_0000_0000_0000
    ensures Nearest(x) == 0x8000_0000_0000_0000 <==> x <= 0x8000_0000_0000_0400
  {
    PowersAre();
    SpacingAt(x, 2048);
  }

  lemma NearestOfTop()
    ensures Nearest(INT_MAX) == 0x8000_0000_0000_0000 && Nearest(INT_MIN) == INT_MIN && Nearest(0) == 0
  {
    NearestBelow(INT_MAX);
    NearestAbove(-INT_MIN);
  }

  /** PHP_INT_MAX and an unsigned number of 64 bits. */
  lemma AtMostTop(x: nat)
    requires x < 0x1_0000_0000_0000_0000
    ensures AtMost(Argument(x), Whole(INT_MAX)) <==> x <= 0x8000_0000_0000_0400
    ensures AtMost(Whole(0), Argument(x))
  {
    hide Nearest;
    NearestOfTop();
    if x > INT_MAX {
      NearestAbove(x);
    }
  }

  /** An integer and an unsigned default of 64 bits. */
  lemma EqualToLiteral(x: nat, d: nat)
    requires x <= INT_MAX && d < 0x1_0000_0000_0000_0000
    ensures Equal(Argument(x), Literal(d)) <==>
      x == d || (x >= 0x7fff_ffff_ffff_fe00 && 0x8000_0000_0000_0000 <= d <= 0x8000_0000_0000_0400)
  {
    hide Nearest;
    NearestBelow(x);
    if d > INT_MAX {
      NearestAbove(d);
    }
  }

  /** An integer and a signed default of 64 bits: the least one is no integer as a literal. */
  lemma EqualToSignedLiteral(x: int, d: int)
    requires INT_MIN <= x <= INT_MAX && INT_MIN <= d <= INT_MAX
    ensures Equal(Argument(x), Literal(d)) <==> x == d || (d == INT_MIN && x <= -0x7fff_ffff_ffff_fe00)
  {
    if d == INT_MIN {
      NearestOfTop();
      if x < 0 {
        NegativeRounds(x);
        if x > INT_MIN {
          NearestBelow(-x);
        } else {
          NearestAbove(-x);
        }
      } else {
        assert Nearest(x) >= 0;
      }
    }
  }

  lemma NegativeRounds(x: int)
    requires x < 0
    ensures Nearest(x) == -Nearest(-x)
  {
  }
}
