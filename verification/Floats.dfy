/**
 What a floating-point bit pattern stands for by IEEE 754, from its sign, its exponent and its
 fraction, and what it then means that a value equals the default of its slot.
 */
module Floats {
  import opened Bits
  import opened Codec
  import opened Wrappers
  import L = Layout

  /** A finite value is counted in the smallest positive one, 2^-149 for four bytes and 2^-1074 for eight. */
  datatype Real = NotANumber | Infinite(negative: bool) | Finite(units: int)

  function Power2(n: nat): pos {
    if n == 0 then 1 else 2 * Power2(n - 1)
  }

  predicate Negative(k: nat, bits: int) {
    bits >= if k == 4 then 0x8000_0000 else 0x8000_0000_0000_0000
  }

  /** One more than the greatest fraction: 23 bits of four bytes, 52 of eight. */
  function FractionLimit(k: nat): pos {
    if k == 4 then 0x80_0000 else 0x10_0000_0000_0000
  }

  function Fraction(k: nat, bits: int): nat {
    bits % FractionLimit(k)
  }

  /** The 8 or 11 bits between the sign and the fraction. */
  function Exponent(k: nat, bits: int): nat {
    (bits / FractionLimit(k)) % (if k == 4 then 0x100 else 0x800)
  }

  /** The greatest exponent, of the infinities and of NaN. */
  function TopExponent(k: nat): nat {
    if k == 4 then 0xff else 0x7ff
  }

  /** With exponent zero there is no leading one; the next exponent has the same step, and from there on it doubles. */
  function Magnitude(k: nat, exponent: nat, fraction: nat): nat {
    if exponent == 0 then fraction else (FractionLimit(k) + fraction) * Power2(exponent - 1)
  }

  function ValueOf(k: nat, bits: int): Real {
    if Exponent(k, bits) == TopExponent(k) then
      if Fraction(k, bits) == 0 then Infinite(Negative(k, bits)) else NotANumber
    else
      var m: int := Magnitude(k, Exponent(k, bits), Fraction(k, bits));
      Finite(if Negative(k, bits) then -m else m)
  }

  /** A value equals another one of its type: by the numbers they stand for, and NaN equals nothing. */
  predicate Equals(kind: Kind, k: nat, x: int, d: int) {
    if kind.Floating? then !ValueOf(k, x).NotANumber? && ValueOf(k, x) == ValueOf(k, d) else x == d
  }

  // ---- Different patterns are different numbers, but for the two zeros ------------------

  lemma {:induction false} PowersRise(m: nat, n: nat)
    requires m <= n
    ensures Power2(m) <= Power2(n)
    decreases n
  {
    if m < n {
      PowersRise(m, n - 1);
    }
  }

  /** The magnitude rises with the exponent. */
  lemma MagnitudeRises(k: nat, e1: nat, f1: nat, e2: nat, f2: nat)
    requires f1 < FractionLimit(k) && f2 < FractionLimit(k) && e1 < e2
    ensures Magnitude(k, e1, f1) < Magnitude(k, e2, f2)
  {
    var limit, p2 := FractionLimit(k), Power2(e2 - 1);
    assert limit <= limit * p2 <= (limit + f2) * p2;
    if e1 > 0 {
      var p1 := Power2(e1 - 1);
      PowersRise(e1, e2 - 1);
      assert (limit + f1) * p1 < (2 * limit) * p1 == limit * (2 * p1) <= limit * p2;
    }
  }

  /** And with the fraction. */
  lemma MagnitudeIsOneToOne(k: nat, e1: nat, f1: nat, e2: nat, f2: nat)
    requires f1 < FractionLimit(k) && f2 < FractionLimit(k) && Magnitude(k, e1, f1) == Magnitude(k, e2, f2)
    ensures e1 == e2 && f1 == f2
  {
    if e1 < e2 {
      MagnitudeRises(k, e1, f1, e2, f2);
    } else if e2 < e1 {
      MagnitudeRises(k, e2, f2, e1, f1);
    } else if e1 > 0 {
      var p := Power2(e1 - 1);
      assert (f1 - f2) * p == 0;
    }
  }

  lemma Recombines(low: pos, high: pos, r: nat, e: nat, s: nat)
    requires r < low && e < high
    ensures low * (high * s + e) + r == s * (low * high) + (r + low * e)
    ensures 0 <= r + low * e < low * high
  {
    assert low * (high * s) == s * (low * high);
    assert low * e <= low * (high - 1) == low * high - low;
  }

  lemma SplitsAt(n: nat, low: pos, high: pos, size: pos, r: nat, e: nat, s: nat)
    requires r < low && e < high && n == low * (high * s + e) + r && size == low * high
    ensures n % size == r + low * e
  {
    Recombines(low, high, r, e, s);
    ModuloUnique(n, size, s, r + low * e);
  }

  /** A pattern is its sign, its exponent and its fraction. */
  lemma Parts(k: nat, bits: nat)
    requires InType(Floating, k, bits)
    ensures bits == Fraction(k, bits) + FractionLimit(k) * Exponent(k, bits)
      + (if Negative(k, bits) then (if k == 4 then 0x8000_0000 else 0x8000_0000_0000_0000) else 0)
    ensures Fraction(k, bits) < FractionLimit(k) && Exponent(k, bits) <= TopExponent(k)
    ensures IsNaN(k, bits) <==> Exponent(k, bits) == TopExponent(k) && Fraction(k, bits) > 0
    ensures IsZero(k, bits) <==> Exponent(k, bits) == 0 && Fraction(k, bits) == 0
  {
    Widths();
    if k == 4 {
      SplitsAt(bits, 0x80_0000, 0x100, 0x8000_0000, Fraction(k, bits), Exponent(k, bits),
        bits / 0x80_0000 / 0x100);
    } else {
      SplitsAt(bits, 0x10_0000_0000_0000, 0x800, 0x8000_0000_0000_0000, Fraction(k, bits), Exponent(k, bits),
        bits / 0x10_0000_0000_0000 / 0x800);
    }
  }

  lemma MagnitudeIsZero(k: nat, e: nat, f: nat)
    ensures Magnitude(k, e, f) == 0 <==> e == 0 && f == 0
  {
  }

  /** The comparison of patterns that the builders make is the comparison of the numbers. */
  lemma SameIsEqual(kind: Kind, k: nat, x: int, d: int)
    requires InType(kind, k, x) && InType(kind, k, d)
    ensures SameValue(kind, k, x, d) <==> Equals(kind, k, x, d)
  {
    if kind.Floating? {
      hide Magnitude, Fraction, Exponent, Negative, IsNaN, IsZero, Power2;
      Parts(k, x);
      Parts(k, d);
      var e1, f1, e2, f2 := Exponent(k, x), Fraction(k, x), Exponent(k, d), Fraction(k, d);
      MagnitudeIsZero(k, e1, f1);
      MagnitudeIsZero(k, e2, f2);
      if Magnitude(k, e1, f1) == Magnitude(k, e2, f2) {
        MagnitudeIsOneToOne(k, e1, f1, e2, f2);
      }
    }
  }

  /** A scalar slot is left alone exactly if the value equals the default. */
  lemma SameSlot(s: L.State, slot: nat, size: pos, kind: Kind, x: int, d: int)
    requires InType(kind, size, x) && InType(kind, size, d)
    ensures L.ScalarSlot(s, slot, size, kind, x, d) == Some(s) <==> Equals(kind, size, x, d)
  {
    hide Equals, SameValue, InType, AlignSize, L.Zeros;
    SameIsEqual(kind, size, x, d);
    assert |L.PrependScalar(s, size, x).data| > |s.data|;
  }
}
