/**
 Little-endian words. `LE` and `FromLE` are the specification; the methods are the store and load
 routines of the Go and PHP runtimes, proved against it.
 */
module Codec {
  import Bits

  type byte = x: int | 0 <= x < 256

  function Pow256(k: nat): (p: nat)
    ensures p >= 1
  {
    if k == 0 then 1 else 256 * Pow256(k - 1)
  }

  /** The `k` bytes of `n`, least significant first; `n` may be negative (two's complement). */
  function LE(n: int, k: nat): (bs: seq<byte>)
    ensures |bs| == k
    decreases k, n
  {
    if k == 0 then [] else [n % 256] + LE(n / 256, k - 1)
  }

  /** The unsigned value of a little-endian word. */
  function FromLE(bs: seq<byte>): (n: nat)
    ensures n < Pow256(|bs|)
  {
    if bs == [] then 0 else bs[0] + 256 * FromLE(bs[1..])
  }

  /** Reading an unsigned `k`-byte word as a signed one. */
  function ToSigned(u: nat, k: nat): int
    requires u < Pow256(k)
  {
    if 2 * u >= Pow256(k) then u - Pow256(k) else u
  }

  /** A stored word reads back modulo its width. */
  lemma {:induction false} LoadAfterStore(n: int, k: nat)
    ensures FromLE(LE(n, k)) == n % Pow256(k)
    decreases k
  {
    if k == 0 {
    } else {
      assert LE(n, k)[1..] == LE(n / 256, k - 1);
      LoadAfterStore(n / 256, k - 1);
      DigitModulo(n, Pow256(k - 1));
    }
  }

  lemma DigitModulo(n: int, p: int)
    requires p > 0
    ensures n % (256 * p) == n % 256 + 256 * ((n / 256) % p)
  {
    var q, r := (n / 256) / p, (n / 256) % p;
    assert n / 256 == q * p + r;
    assert n == q * (256 * p) + (n % 256 + 256 * r) by { assert 256 * (q * p) == q * (256 * p); }
    Bits.ModuloUnique(n, 256 * p, q, n % 256 + 256 * r);
  }

  /** An unsigned value that fits reads back unchanged. */
  lemma LoadAfterStoreUnsigned(n: int, k: nat)
    requires 0 <= n < Pow256(k)
    ensures FromLE(LE(n, k)) == n
  {
    LoadAfterStore(n, k);
    Bits.ModuloUnique(n, Pow256(k), 0, n);
  }

  // ---- Scalar types ----------------------------------------------------------

  /** The type of a scalar, next to its width; a floating value is given by its IEEE 754 bit pattern. */
  datatype Kind = Unsigned | Signed | Floating

  /** The values of the scalar type of `k` bytes. */
  predicate InType(kind: Kind, k: nat, n: int) {
    if kind.Signed? then -(Pow256(k) as int) <= 2 * n < Pow256(k)
    else 0 <= n < Pow256(k) && (kind.Floating? ==> k == 4 || k == 8)
  }

  lemma ReducedIsItself(kind: Kind, k: nat, n: int)
    ensures InType(kind, k, n) ==> n % Pow256(k) == if n < 0 then n + Pow256(k) else n
  {
    if InType(kind, k, n) {
      Bits.ModuloUnique(n, Pow256(k), if n < 0 then -1 else 0, if n < 0 then n + Pow256(k) else n);
    }
  }

  /** The value that the word of `n` has when it is read in a type: `n` itself if that is one of its values. */
  function Interpret(kind: Kind, k: nat, n: int): (r: int)
    ensures InType(kind, k, n) ==> r == n
  {
    ReducedIsItself(kind, k, n);
    if kind.Signed? then ToSigned(n % Pow256(k), k) else n % Pow256(k)
  }

  /** A signed value that fits reads back unchanged through `ToSigned`. */
  lemma LoadAfterStoreSigned(n: int, k: nat)
    requires InType(Signed, k, n)
    ensures ToSigned(FromLE(LE(n, k)), k) == n
  {
    LoadAfterStore(n, k);
    assert Interpret(Signed, k, n) == n;
  }

  predicate IsNaN(k: nat, bits: int) {
    if k == 4 then bits % 0x8000_0000 > 0x7f80_0000 else bits % 0x8000_0000_0000_0000 > 0x7ff0_0000_0000_0000
  }

  predicate IsZero(k: nat, bits: int) {
    if k == 4 then bits % 0x8000_0000 == 0 else bits % 0x8000_0000_0000_0000 == 0
  }

  /** The operator `==` of the languages: no NaN equals anything, and the two zeros are equal. */
  predicate SameValue(kind: Kind, k: nat, x: int, y: int) {
    if kind.Floating? then !IsNaN(k, x) && !IsNaN(k, y) && (x == y || (IsZero(k, x) && IsZero(k, y))) else x == y
  }

  lemma Widths()
    ensures Pow256(1) == 0x100 && Pow256(2) == 0x1_0000 && Pow256(4) == 0x1_0000_0000
    ensures Pow256(8) == 0x1_0000_0000_0000_0000
  {
    assert Pow256(2) == 256 * Pow256(1);
    assert Pow256(3) == 256 * Pow256(2);
    assert Pow256(4) == 256 * Pow256(3);
    assert Pow256(5) == 256 * Pow256(4);
    assert Pow256(6) == 256 * Pow256(5);
    assert Pow256(7) == 256 * Pow256(6);
    assert Pow256(8) == 256 * Pow256(7);
  }

  // ---- Words inside a longer byte string -----------------------------------

  /** The unsigned `k`-byte word at `pos`, as GetUint8, GetUint16, GetUint32 and GetUint64 read it. */
  function Get(buf: seq<byte>, pos: nat, k: nat): (n: nat)
    requires pos + k <= |buf|
    ensures n < Pow256(k)
  {
    FromLE(buf[pos..pos + k])
  }

  /** The signed `k`-byte word at `pos`. */
  function GetSigned(buf: seq<byte>, pos: nat, k: nat): int
    requires pos + k <= |buf|
  {
    ToSigned(Get(buf, pos, k), k)
  }

  /** `buf` with the bytes `bs` stored at `pos`. */
  function Put(buf: seq<byte>, pos: nat, bs: seq<byte>): (r: seq<byte>)
    requires pos + |bs| <= |buf|
    ensures |r| == |buf|
  {
    buf[..pos] + bs + buf[pos + |bs|..]
  }

  // ---- The Go routines (go/encode.go) ---------------------------------------

  function GetUint16(buf: seq<byte>): int
    requires |buf| >= 2
  {
    buf[0] as int + buf[1] as int * 0x100
  }

  function GetUint32(buf: seq<byte>): int
    requires |buf| >= 4
  {
    buf[0] as int + buf[1] as int * 0x100 + buf[2] as int * 0x1_0000 + buf[3] as int * 0x100_0000
  }

  /** The unrolled loads agree with `Get`. */
  lemma UnrolledLoads(buf: seq<byte>)
    ensures |buf| >= 2 ==> GetUint16(buf) == Get(buf, 0, 2)
    ensures |buf| >= 4 ==> GetUint32(buf) == Get(buf, 0, 4)
  {
    if |buf| >= 2 {
      var b := buf[0..2];
      assert FromLE(b[1..]) == b[1] + 256 * FromLE(b[1..][1..]);
    }
    if |buf| >= 4 {
      var b := buf[0..4];
      assert b[1..][1..] == b[2..] && b[2..][1..] == b[3..] && b[3..][1..] == [];
      assert FromLE(b[3..]) == b[3];
      assert FromLE(b[2..]) == b[2] + 256 * FromLE(b[3..]);
      assert FromLE(b[1..]) == b[1] + 256 * FromLE(b[2..]);
    }
  }

  /** WriteUint8, WriteUint16, WriteUint32, WriteUint64 and their signed forms: byte `i` becomes `byte(n >> 8i)`. */
  method WriteWord(a: array<byte>, pos: nat, n: int, k: nat)
    requires pos + k <= a.Length
    modifies a
    ensures a[..] == Put(old(a[..]), pos, LE(n, k))
  {
    var i, rest := 0, n;
    while i < k
      invariant 0 <= i <= k
      invariant LE(n, k)[i..] == LE(rest, k - i)
      invariant forall j :: 0 <= j < i ==> a[pos + j] == LE(n, k)[j]
      invariant forall j :: 0 <= j < a.Length && !(pos <= j < pos + i) ==> a[j] == old(a[j])
    {
      assert LE(rest, k - i)[0] == rest % 256;
      assert LE(n, k)[i..][1..] == LE(n, k)[i + 1..];
      a[pos + i] := rest % 256;
      i, rest := i + 1, rest / 256;
    }
  }
}
