/**
 Every operation only puts bytes in front of the data. For EndObject this is not what the code
 does step by step, since it stores a placeholder and overwrites it; the closed form shows that
 the result is the same as if the right offset had been prepended at once.
 */
module Prepends {
  import opened Bits
  import opened Codec
  import opened Wrappers
  import opened Layout

  ghost predicate IsSuffix(old_: seq<byte>, new_: seq<byte>) {
    |old_| <= |new_| && new_[|new_| - |old_|..] == old_
  }

  lemma PrependedIsSuffix(p: seq<byte>, d: seq<byte>)
    ensures IsSuffix(d, p + d)
  {
  }

  lemma SuffixTransitive(a: seq<byte>, b: seq<byte>, c: seq<byte>)
    requires IsSuffix(a, b) && IsSuffix(b, c)
    ensures IsSuffix(a, c)
  {
    assert c[|c| - |a|..] == c[|c| - |b|..][|b| - |a|..];
  }

  lemma PowersUsed()
    ensures PowerOfTwo(1) && PowerOfTwo(2) && PowerOfTwo(4) && PowerOfTwo(8)
  {
    assert PowerOfTwo(1) && PowerOfTwo(2) && PowerOfTwo(4);
  }

  /** Prep leaves the next `size`-byte word aligned and adds fewer than `size` zero bytes. */
  lemma PrepAligns(s: State, size: pos, additional: nat)
    requires PowerOfTwo(size)
    ensures (|Prep(s, size, additional).data| + additional) % size == 0
    ensures PadFor(s, size, additional) < size
    ensures |Prep(s, size, additional).data| == |s.data| + PadFor(s, size, additional)
    ensures (|s.data| + additional) % size == 0 ==> Prep(s, size, additional).data == s.data
  {
    AlignSizeAligns(|s.data| + additional, size);
  }

  lemma AlignedPrepend(s: State, size: pos, x: int)
    requires PowerOfTwo(size) && |s.data| % size == 0
    ensures PrependScalar(s, size, x).data == LE(x, size) + s.data
  {
    PrepAligns(s, size, 0);
  }

  // ---- The vtable as one byte string -----------------------------------------

  function EntryBytes(vt: seq<nat>, objectOffset: nat): (b: seq<byte>)
    ensures |b| == 2 * |vt|
  {
    if vt == [] then []
    else EntryBytes(vt[..|vt| - 1], objectOffset) + LE(Entry(vt[|vt| - 1], objectOffset), 2)
  }

  function VtableBytes(vt: seq<nat>, objectOffset: nat, objectEnd: nat): (b: seq<byte>)
    ensures |b| == 4 + 2 * |vt|
  {
    LE((|vt| + 2) * 2, 2) + LE(objectOffset - objectEnd, 2) + EntryBytes(vt, objectOffset)
  }

  lemma {:induction false} EntryBytesAt(vt: seq<nat>, objectOffset: nat, i: nat)
    requires i < |vt|
    ensures EntryBytes(vt, objectOffset)[2 * i..2 * i + 2] == LE(Entry(vt[i], objectOffset), 2)
    decreases |vt|
  {
    var last := |vt| - 1;
    if i < last {
      EntryBytesAt(vt[..last], objectOffset, i);
      assert EntryBytes(vt, objectOffset)[2 * i..2 * i + 2] == EntryBytes(vt[..last], objectOffset)[2 * i..2 * i + 2];
    }
  }

  lemma {:induction false} PrependEntriesClosed(s: State, vt: seq<nat>, objectOffset: nat)
    requires |s.data| % 2 == 0
    ensures PrependEntries(s, vt, objectOffset).data == EntryBytes(vt, objectOffset) + s.data
    ensures PrependEntries(s, vt, objectOffset).minalign == if vt == [] || s.minalign > 2 then s.minalign else 2
    decreases |vt|
  {
    if vt != [] {
      PowersUsed();
      var last := |vt| - 1;
      var e := Entry(vt[last], objectOffset);
      var s1 := PrependScalar(s, 2, e);
      AlignedPrepend(s, 2, e);
      PrependEntriesClosed(s1, vt[..last], objectOffset);
      assert EntryBytes(vt[..last], objectOffset) + (LE(e, 2) + s.data) == EntryBytes(vt, objectOffset) + s.data;
    }
  }

  lemma EvenSum(n: int, d: int)
    requires d % 2 == 0
    ensures (2 * n + d) % 2 == 0 && (2 + d) % 2 == 0
  {
  }

  lemma EvenPrepend(s: State, x: int)
    requires |s.data| % 2 == 0 && s.minalign >= 2
    ensures PrependScalar(s, 2, x) == s.(data := LE(x, 2) + s.data)
  {
    PowersUsed();
    AlignedPrepend(s, 2, x);
  }

  lemma AppendVtableClosed(s: State, vt: seq<nat>, objectOffset: nat, objectEnd: nat)
    requires |s.data| % 2 == 0 && s.minalign >= 2
    ensures AppendVtable(s, vt, objectOffset, objectEnd) ==
      s.(data := VtableBytes(vt, objectOffset, objectEnd) + s.data)
  {
    var entries := EntryBytes(vt, objectOffset);
    PrependEntriesClosed(s, vt, objectOffset);
    PrependEntriesGrows(s, vt, objectOffset);
    var s1 := s.(data := entries + s.data);
    assert PrependEntries(s, vt, objectOffset) == s1;
    EvenSum(|vt|, |s.data|);
    EvenPrepend(s1, objectOffset - objectEnd);
    var s2 := s1.(data := LE(objectOffset - objectEnd, 2) + s1.data);
    EvenSum(|vt|, |s1.data|);
    EvenPrepend(s2, (|vt| + 2) * 2);
    VtableBytesAssociate(LE((|vt| + 2) * 2, 2), LE(objectOffset - objectEnd, 2), entries, s.data);
  }

  lemma VtableBytesAssociate(a: seq<byte>, b: seq<byte>, c: seq<byte>, d: seq<byte>)
    ensures a + (b + (c + d)) == a + b + c + d
  {
  }

  // ---- The closed form of EndObject -------------------------------------------

  /** The handle EndObject returns: the position of the word in front of the object's fields. */
  function ObjectOffset(s: State): nat {
    |s.data| + PadFor(s, 4, 0) + 4
  }

  /** The handle of the registered vtable that EndObject shares, or zero. */
  function SharedVtable(s: State): nat {
    FindVtable(BeginVtable(s).data, s.vtables, Trim(s.vtable), ObjectOffset(s))
  }

  /** The handle of the vtable that the object gets, shared or new. */
  function VtableOf(s: State): nat {
    if SharedVtable(s) != 0 then SharedVtable(s) else ObjectOffset(s) + 4 + 2 * |Trim(s.vtable)|
  }

  /** What EndObject puts in front of the data, outermost first. */
  function ObjectPrefix(s: State): seq<byte> {
    (if SharedVtable(s) != 0 then [] else VtableBytes(Trim(s.vtable), ObjectOffset(s), s.objectEnd))
    + LE(VtableOf(s) - ObjectOffset(s), 4) + Zeros(PadFor(s, 4, 0))
  }

  lemma ObjectOffsetAligned(s: State)
    ensures ObjectOffset(s) % 4 == 0 && ObjectOffset(s) % 2 == 0 && PadFor(s, 4, 0) < 4
    ensures |BeginVtable(s).data| == ObjectOffset(s)
  {
    PowersUsed();
    PrepAligns(s, 4, 0);
    FourthIsEven(|Prep(s, 4, 0).data|);
  }

  lemma FourthIsEven(x: int)
    requires x % 4 == 0
    ensures (x + 4) % 4 == 0 && (x + 4) % 2 == 0
  {
    ModuloUnique(x + 4, 4, x / 4 + 1, 0);
    ModuloUnique(x + 4, 2, 2 * (x / 4) + 2, 0);
  }

  lemma PatchPrefix(p: seq<byte>, w: seq<byte>, d: seq<byte>, v: nat)
    requires |w| == 4
    ensures Patch(p + (w + d), |d| + 4, v) == p + LE(v - (|d| + 4), 4) + d
  {
    var all := p + (w + d);
    assert all[..|p|] == p;
    assert all[|p| + 4..] == d;
  }

  /** BeginVtable's data with its placeholder replaced. */
  lemma PatchPlaceholder(s: State, p: seq<byte>, v: nat)
    ensures |BeginVtable(s).data| == ObjectOffset(s)
    ensures Patch(p + BeginVtable(s).data, ObjectOffset(s), v)
      == p + LE(v - ObjectOffset(s), 4) + Zeros(PadFor(s, 4, 0)) + s.data
  {
    hide LE, Zeros, AlignSize;
    var s0 := Prep(s, 4, 0);
    var word := LE(|s0.data| + 4, 4);
    assert p + BeginVtable(s).data == p + (word + s0.data);
    PatchPrefix(p, word, s0.data, v);
    assert p + LE(v - ObjectOffset(s), 4) + (Zeros(PadFor(s, 4, 0)) + s.data)
      == p + LE(v - ObjectOffset(s), 4) + Zeros(PadFor(s, 4, 0)) + s.data;
  }

  lemma SharedIs(s: State)
    requires SharedVtable(s) != 0
    ensures |BeginVtable(s).data| == ObjectOffset(s) >= 4
    ensures WriteVtable(s) == BeginVtable(s).(
      data := Patch(BeginVtable(s).data, ObjectOffset(s), SharedVtable(s)), vtable := [])
  {
    hide BeginVtable, FindVtable, Trim, Patch, PadFor;
    ObjectOffsetAligned(s);
    BeginVtableShape(s);
  }

  lemma SharedPrefix(s: State)
    requires SharedVtable(s) != 0 && |BeginVtable(s).data| == ObjectOffset(s) >= 4
    ensures Patch(BeginVtable(s).data, ObjectOffset(s), SharedVtable(s)) == ObjectPrefix(s) + s.data
  {
    hide BeginVtable, SharedVtable, Trim, LE, Zeros, PadFor, VtableBytes, Patch;
    PatchPlaceholder(s, [], SharedVtable(s));
    assert [] + BeginVtable(s).data == BeginVtable(s).data;
  }

  lemma SharedPrepends(s: State)
    requires SharedVtable(s) != 0
    ensures WriteVtable(s) == BeginVtable(s).(data := ObjectPrefix(s) + s.data, vtable := [])
  {
    hide *;
    SharedIs(s);
    SharedPrefix(s);
  }

  lemma RegisterPrepended(s: State, p: seq<byte>, word: seq<byte>, base: seq<byte>)
    requires s.data == p + (word + base) && |word| == 4
    ensures Register(s, |base| + 4) == s.(
      data := p + LE(|p|, 4) + base, vtables := s.vtables + [|s.data|], vtable := [])
  {
    PatchPrefix(p, word, base, |s.data|);
  }

  lemma NewVtableCloses(s: State, vt: seq<nat>, word: seq<byte>, base: seq<byte>, p: seq<byte>)
    requires s.data == word + base && |word| == 4 && |s.data| % 2 == 0 && s.minalign >= 2
    requires p == VtableBytes(vt, |s.data|, s.objectEnd)
    ensures FinishWithNewVtable(s, vt, |s.data|) == s.(
      data := p + LE(|p|, 4) + base, vtables := s.vtables + [|p| + |s.data|], vtable := [])
  {
    AppendVtableClosed(s, vt, |s.data|, s.objectEnd);
    var s1 := AppendVtable(s, vt, |s.data|, s.objectEnd);
    assert s1 == s.(data := p + s.data);
    RegisterPrepended(s1, p, word, base);
  }

  lemma BeginVtableShape(s: State)
    ensures BeginVtable(s).data == LE(ObjectOffset(s), 4) + (Zeros(PadFor(s, 4, 0)) + s.data)
    ensures BeginVtable(s) == s.(data := BeginVtable(s).data, minalign := if 4 > s.minalign then 4 else s.minalign)
  {
  }

  lemma NewPrefix(s: State, p: seq<byte>)
    requires SharedVtable(s) == 0 && p == VtableBytes(Trim(s.vtable), ObjectOffset(s), s.objectEnd)
    ensures |p| == VtableOf(s) - ObjectOffset(s)
    ensures p + LE(|p|, 4) + (Zeros(PadFor(s, 4, 0)) + s.data) == ObjectPrefix(s) + s.data
  {
    assert ObjectPrefix(s) == p + LE(|p|, 4) + Zeros(PadFor(s, 4, 0));
    Reassociate(p + LE(|p|, 4), Zeros(PadFor(s, 4, 0)), s.data);
  }

  lemma Reassociate(a: seq<byte>, b: seq<byte>, c: seq<byte>)
    ensures a + (b + c) == a + b + c
  {
  }

  lemma NewIs(s: State)
    requires SharedVtable(s) == 0
    ensures |BeginVtable(s).data| == ObjectOffset(s) >= 4
    ensures WriteVtable(s)
      == FinishWithNewVtable(BeginVtable(s).(vtable := Trim(s.vtable)), Trim(s.vtable), ObjectOffset(s))
  {
    hide BeginVtable, FindVtable, Trim, FinishWithNewVtable, PadFor;
    ObjectOffsetAligned(s);
    BeginVtableShape(s);
  }

  lemma NewPrepends(s: State)
    requires SharedVtable(s) == 0
    ensures WriteVtable(s) == BeginVtable(s).(
      data := ObjectPrefix(s) + s.data, vtables := s.vtables + [VtableOf(s)], vtable := [])
  {
    hide BeginVtable, FindVtable, Trim, LE, Zeros, PadFor, VtableBytes, FinishWithNewVtable, WriteVtable;
    var oo, vt := ObjectOffset(s), Trim(s.vtable);
    var s1 := BeginVtable(s).(vtable := vt);
    var p := VtableBytes(vt, oo, s.objectEnd);
    NewIs(s);
    ObjectOffsetAligned(s);
    BeginVtableShape(s);
    NewVtableCloses(s1, vt, LE(oo, 4), Zeros(PadFor(s, 4, 0)) + s.data, p);
    NewPrefix(s, p);
  }

  /** EndObject is one prepend of the vtable (unless shared), the offset to it, and padding. */
  lemma EndObjectPrepends(s: State)
    ensures WriteVtable(s) == s.(
      data := ObjectPrefix(s) + s.data,
      minalign := if 4 > s.minalign then 4 else s.minalign,
      vtables := if SharedVtable(s) != 0 then s.vtables else s.vtables + [VtableOf(s)],
      vtable := [])
  {
    if SharedVtable(s) != 0 {
      SharedPrepends(s);
    } else {
      NewPrepends(s);
    }
  }
}
