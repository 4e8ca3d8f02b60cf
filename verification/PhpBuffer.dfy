/**
 The PHP byte buffer: loads and stores by shifting single bytes, and signs by the top bit of the
 last byte. `None` and `Fail` are the exceptions of assertOffsetAndLength and validateValue.
 */
module PhpBuffer {
  import opened Bits
  import opened Codec
  import opened Wrappers
  import Growth
  import P = PhpLayout

  /** `$data >> $i * 8`, reduced to a byte by chr. */
  lemma {:induction false} ByteOfWord(n: int, k: nat, i: nat)
    requires i < k
    ensures LE(n, k)[i] == (n / Pow256(i)) % 256
    decreases i
  {
    if i > 0 {
      ByteOfWord(n / 256, k - 1, i - 1);
      DivideTwice(n, Pow256(i - 1));
    }
  }

  lemma DivideTwice(n: int, p: int)
    requires p > 0
    ensures n / 256 / p == n / (256 * p)
  {
    var q, r := n / 256 / p, (n / 256) % p;
    assert n / 256 == q * p + r;
    assert n == q * (256 * p) + (256 * r + n % 256) by { assert 256 * (q * p) == q * (256 * p); }
    ModuloUnique(n, 256 * p, q, 256 * r + n % 256);
  }

  /** A longer word adds its last byte at the top. */
  lemma {:induction false} LastByte(bs: seq<byte>, b: byte)
    ensures FromLE(bs + [b]) == FromLE(bs) + b * Pow256(|bs|)
  {
    if bs == [] {
      assert [b][1..] == [];
    } else {
      assert (bs + [b])[1..] == bs[1..] + [b];
      LastByte(bs[1..], b);
      assert 256 * (b * Pow256(|bs| - 1)) == b * (256 * Pow256(|bs| - 1));
    }
  }

  method WriteLittleEndian(buffer: array<byte>, offset: nat, count: nat, data: int)
    requires offset + count <= buffer.Length
    modifies buffer
    ensures buffer[..] == Put(old(buffer[..]), offset, LE(data, count))
  {
    for i := 0 to count
      invariant forall j :: 0 <= j < i ==> buffer[offset + j] == LE(data, count)[j]
      invariant forall j :: 0 <= j < buffer.Length && !(offset <= j < offset + i) ==> buffer[j] == old(buffer[j])
    {
      ByteOfWord(data, count, i);
      buffer[offset + i] := (data / Pow256(i)) % 256;
    }
  }

  predicate InRange(length: nat, offset: int, count: nat) {
    !(offset < 0 || offset >= length || offset + count > length)
  }

  method ReadLittleEndian(buffer: array<byte>, offset: int, count: nat) returns (r: Option<nat>)
    ensures r.Some? <==> InRange(buffer.Length, offset, count)
    ensures r.Some? ==> r.value == Get(buffer[..], offset, count)
  {
    if !InRange(buffer.Length, offset, count) {
      return None;
    }
    var sum := 0;
    for i := 0 to count
      invariant sum == FromLE(buffer[offset..offset + i])
    {
      assert buffer[offset..offset + i + 1] == buffer[offset..offset + i] + [buffer[offset + i]];
      LastByte(buffer[offset..offset + i], buffer[offset + i]);
      sum := sum + buffer[offset + i] * Pow256(i);
    }
    assert buffer[..][offset..offset + count] == buffer[offset..offset + count];
    r := Some(sum);
  }

  /** `b & 0x80`. */
  lemma SignBit(b: byte)
    ensures And(b, 0x80) != 0 <==> b >= 0x80
  {
    assert Growth.Pow2(7) == 0x80;
    TopBit(b, 7);
  }

  lemma {:induction false} TopBit(a: nat, k: nat)
    requires a < 2 * Growth.Pow2(k)
    ensures And(a, Growth.Pow2(k)) == 0 <==> a < Growth.Pow2(k)
  {
    if k == 0 {
      assert And(a, 1) == 2 * And(a / 2, 0) + a % 2;
    } else {
      TopBit(a / 2, k - 1);
    }
  }

  lemma TopDigit(f: nat, b: nat, p: nat)
    requires f < p && b < 256
    ensures 2 * (f + b * p) >= 256 * p <==> b >= 0x80
  {
    if b >= 0x80 {
      assert b * p >= 0x80 * p;
    } else {
      assert b * p <= 0x7f * p;
    }
  }

  /** The last byte has the sign of the word. */
  lemma SignOfWord(bs: seq<byte>)
    requires bs != []
    ensures 2 * FromLE(bs) >= Pow256(|bs|) <==> bs[|bs| - 1] >= 0x80
  {
    hide FromLE;
    var last := |bs| - 1;
    assert bs == bs[..last] + [bs[last]];
    LastByte(bs[..last], bs[last]);
    TopDigit(FromLE(bs[..last]), bs[last], Pow256(last));
  }

  method GetShort(buffer: array<byte>, index: int) returns (r: Option<int>)
    ensures r.Some? <==> InRange(buffer.Length, index, 2)
    ensures r.Some? ==> r.value == GetSigned(buffer[..], index, 2)
  {
    var word := ReadLittleEndian(buffer, index, 2);
    if word.None? {
      return None;
    }
    Widths();
    var sign := buffer[index + 1];
    SignBit(sign);
    SignOfWord(buffer[..][index..index + 2]);
    var result: int := word.value;
    if And(sign, 0x80) != 0 {
      result := result - 65536;
    }
    r := Some(result);
  }

  method GetInt(buffer: array<byte>, index: int) returns (r: Option<int>)
    ensures r.Some? <==> InRange(buffer.Length, index, 4)
    ensures r.Some? ==> r.value == GetSigned(buffer[..], index, 4)
  {
    var word := ReadLittleEndian(buffer, index, 4);
    if word.None? {
      return None;
    }
    Widths();
    var sign := buffer[index + 3];
    SignBit(sign);
    SignOfWord(buffer[..][index..index + 4]);
    var result: int := word.value;
    if And(sign, 0x80) != 0 {
      result := result - 0x1_0000_0000;
    }
    r := Some(result);
  }

  method PutShort(buffer: array<byte>, offset: int, value: int) returns (r: Outcome)
    modifies buffer
    ensures r == if P.IsShort(value) && InRange(buffer.Length, offset, 2) then Pass else Fail(Misuse)
    ensures buffer[..] == if r.Pass? then Put(old(buffer[..]), offset, LE(value, 2)) else old(buffer[..])
  {
    if !P.IsShort(value) || !InRange(buffer.Length, offset, 2) {
      return Fail(Misuse);
    }
    WriteLittleEndian(buffer, offset, 2, value);
    r := Pass;
  }

  method PutInt(buffer: array<byte>, offset: int, value: int) returns (r: Outcome)
    modifies buffer
    ensures r == if P.IsInt(value) && InRange(buffer.Length, offset, 4) then Pass else Fail(Misuse)
    ensures buffer[..] == if r.Pass? then Put(old(buffer[..]), offset, LE(value, 4)) else old(buffer[..])
  {
    if !P.IsInt(value) || !InRange(buffer.Length, offset, 4) {
      return Fail(Misuse);
    }
    WriteLittleEndian(buffer, offset, 4, value);
    r := Pass;
  }

  method PutUint(buffer: array<byte>, offset: int, value: int) returns (r: Outcome)
    modifies buffer
    ensures r == if 0 <= value < 0x1_0000_0000 && InRange(buffer.Length, offset, 4) then Pass else Fail(Misuse)
    ensures buffer[..] == if r.Pass? then Put(old(buffer[..]), offset, LE(value, 4)) else old(buffer[..])
  {
    if !(0 <= value < 0x1_0000_0000) || !InRange(buffer.Length, offset, 4) {
      return Fail(Misuse);
    }
    WriteLittleEndian(buffer, offset, 4, value);
    r := Pass;
  }

  /** Two shorts are equal as signed exactly when they are as unsigned. */
  lemma SignedIsInjective(u: nat, w: nat)
    requires u < 0x1_0000 && w < 0x1_0000
    ensures (u < Pow256(2) && w < Pow256(2)) && (ToSigned(u, 2) == ToSigned(w, 2) <==> u == w)
  {
    Widths();
  }

  lemma SmallIsUnsigned(u: nat)
    requires u < 0x8000
    ensures u < Pow256(2) && ToSigned(u, 2) == u
  {
    Widths();
  }
}
