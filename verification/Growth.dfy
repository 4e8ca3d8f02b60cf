/** Arithmetic of the growth limit, and what a search through registered vtables needs. */
module Growth {
  import opened Bits
  import opened Codec
  import opened Layout
  import opened Prepends
  import opened Stability
  import opened Sharing

  /** Buffers stay below two gigabytes. */
  const LIMIT := 0x8000_0000

  function Pow2(k: nat): (p: nat)
    ensures p >= 1
  {
    if k == 0 then 1 else 2 * Pow2(k - 1)
  }

  /** Bits `k` and `k + 1` of a number below `2^(k+2)` are clear exactly when it is below `2^k`. */
  lemma {:induction false} TwoTopBits(a: nat, k: nat)
    requires a < 4 * Pow2(k)
    ensures And(a, 3 * Pow2(k)) == 0 <==> a < Pow2(k)
  {
    if k == 0 {
      assert And(a, 3) == 2 * And(a / 2, 1) + a % 2;
      assert And(a / 2, 1) == 2 * And(a / 4, 0) + (a / 2) % 2;
    } else {
      TwoTopBits(a / 2, k - 1);
      assert (3 * Pow2(k)) / 2 == 3 * Pow2(k - 1) && (3 * Pow2(k)) % 2 == 0;
    }
  }

  /** The growth test `len & 0xC0000000` fires from one gigabyte on. */
  lemma TopBits(a: nat)
    requires a < LIMIT
    ensures And(a, 0xC000_0000) == 0 <==> a < 0x4000_0000
  {
    assert Pow2(10) == 0x400;
    Pow2Adds(10, 10);
    Pow2Adds(20, 10);
    assert Pow2(30) == 0x4000_0000;
    TwoTopBits(a, 30);
  }

  lemma {:induction false} Pow2Adds(j: nat, k: nat)
    ensures Pow2(j + k) == Pow2(j) * Pow2(k)
  {
    if k > 0 {
      Pow2Adds(j, k - 1);
      assert Pow2(j + k) == 2 * Pow2(j + (k - 1));
    }
  }

  lemma ZeroWord()
    ensures LE(0, 1) == [0]
  {
    assert LE(0, 1) == [0] + LE(0, 0);
  }

  lemma ByteWord(b: byte)
    ensures LE(b, 1) == [b]
  {
    assert LE(b, 1) == [b % 256] + LE(b / 256, 0);
  }

  /** Every registered vtable lies whole within the data. */
  ghost predicate Registered(data: seq<byte>, vtables: seq<nat>) {
    forall v | v in vtables :: VtableInBounds(data, v)
  }

  lemma InBoundsExtends(data: seq<byte>, data1: seq<byte>, v: nat)
    requires VtableInBounds(data, v) && IsSuffix(data, data1)
    ensures VtableInBounds(data1, v)
  {
    var at, at1 := |data| - v, |data1| - v;
    assert data1[at1..at1 + 2] == data1[|data1| - |data|..][at..at + 2];
  }

  lemma RegisteredExtends(data: seq<byte>, data1: seq<byte>, vtables: seq<nat>)
    requires Registered(data, vtables) && IsSuffix(data, data1)
    ensures Registered(data1, vtables)
  {
    forall v | v in vtables
      ensures VtableInBounds(data1, v)
    {
      InBoundsExtends(data, data1, v);
    }
  }

  // ---- WriteVtable ------------------------------------------------------------------

  lemma TrimKeeps(vt: seq<nat>)
    ensures |Trim(vt)| <= |vt| && forall i :: 0 <= i < |Trim(vt)| ==> Trim(vt)[i] == vt[i]
  {
    TrimIsPrefix(vt);
  }

  lemma NewVtableInBounds(vt: seq<nat>, objectOffset: nat, objectEnd: nat, rest: seq<byte>)
    requires |vt| < 0x7ffe
    ensures var data := VtableBytes(vt, objectOffset, objectEnd) + rest; VtableInBounds(data, |data|)
  {
    var data := VtableBytes(vt, objectOffset, objectEnd) + rest;
    var size := (|vt| + 2) * 2;
    Widths();
    LoadAfterStoreUnsigned(size, 2);
    assert data[0..2] == LE(size, 2);
  }

  /** WriteVtable leaves every registered vtable whole, the new one included. */
  lemma WriteVtableRegisters(s: State)
    requires Registered(s.data, s.vtables) && |s.vtable| < 0x7ffe && PowerOfTwo(s.minalign)
    ensures Registered(WriteVtable(s).data, WriteVtable(s).vtables)
    ensures PowerOfTwo(WriteVtable(s).minalign)
  {
    hide WriteVtable, VtableInBounds, LE, Zeros, FindVtable, VtableEqual, VtableBytes;
    EndObjectExtends(s);
    EndObjectPrepends(s);
    RegisteredExtends(s.data, WriteVtable(s).data, s.vtables);
    if SharedVtable(s) == 0 {
      TrimKeeps(s.vtable);
      var rest := LE(VtableOf(s) - ObjectOffset(s), 4) + Zeros(PadFor(s, 4, 0)) + s.data;
      NewVtableInBounds(Trim(s.vtable), ObjectOffset(s), s.objectEnd, rest);
      FrontVtable(s);
    }
  }

  lemma FrontVtable(s: State)
    requires SharedVtable(s) == 0
    ensures ObjectPrefix(s) + s.data == VtableBytes(Trim(s.vtable), ObjectOffset(s), s.objectEnd)
      + (LE(VtableOf(s) - ObjectOffset(s), 4) + Zeros(PadFor(s, 4, 0)) + s.data)
    ensures |ObjectPrefix(s) + s.data| == VtableOf(s)
  {
    hide LE, FindVtable, Trim;
    var v, w, z := VtableBytes(Trim(s.vtable), ObjectOffset(s), s.objectEnd), LE(VtableOf(s) - ObjectOffset(s), 4),
      Zeros(PadFor(s, 4, 0));
    assert v + w + z + s.data == v + (w + z + s.data);
  }

  // ---- StartVector --------------------------------------------------------------------

  /** The second Prep of StartVector only pads for alignments above four. */
  lemma SecondPrep(s: State, bytes: nat, alignment: pos)
    requires PowerOfTwo(alignment)
    ensures alignment <= 4 ==> Prep(Prep(s, 4, bytes), alignment, bytes).data == Prep(s, 4, bytes).data
  {
    PowersUsed();
    var s0 := Prep(s, 4, bytes);
    PrepAligns(s, 4, bytes);
    PrepAligns(s0, alignment, bytes);
    if alignment <= 4 {
      SmallerDivides(alignment, 4, |s0.data| + bytes);
    }
  }

  lemma UOffsetGrows(s: State, off: nat)
    ensures PrependUOffset(s, off).Some? ==> |PrependUOffset(s, off).value.data| <= |s.data| + 7
  {
    PowersUsed();
    PrepAligns(s, 4, 0);
  }
}
