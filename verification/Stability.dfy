/** Handle stability: no operation changes a byte that is already in the data. */
module Stability {
  import opened Bits
  import opened Codec
  import opened Wrappers
  import opened Layout
  import opened Prepends
  import opened Runs

  /** `s1` has the data of `s` at its end, and alignment only goes up, among powers of two. */
  ghost predicate Extends(s: State, s1: State) {
    && IsSuffix(s.data, s1.data)
    && s.minalign <= s1.minalign
    && (PowerOfTwo(s.minalign) ==> PowerOfTwo(s1.minalign))
  }

  lemma ExtendsTransitive(a: State, b: State, c: State)
    requires Extends(a, b) && Extends(b, c)
    ensures Extends(a, c)
  {
    SuffixTransitive(a.data, b.data, c.data);
  }

  lemma PrepExtends(s: State, size: pos, additional: nat)
    requires PowerOfTwo(size) || size == s.minalign
    ensures Extends(s, Prep(s, size, additional))
  {
    PrependedIsSuffix(Zeros(PadFor(s, size, additional)), s.data);
  }

  lemma PlaceExtends(s: State, bytes: seq<byte>)
    ensures Extends(s, Place(s, bytes))
  {
    PrependedIsSuffix(bytes, s.data);
  }

  lemma PrepPlaceExtends(s: State, size: pos, additional: nat, bytes: seq<byte>)
    requires PowerOfTwo(size) || size == s.minalign
    ensures Extends(s, Place(Prep(s, size, additional), bytes))
  {
    PrepExtends(s, size, additional);
    PlaceExtends(Prep(s, size, additional), bytes);
    ExtendsTransitive(s, Prep(s, size, additional), Place(Prep(s, size, additional), bytes));
  }

  lemma UOffsetExtends(s: State, off: nat)
    ensures PrependUOffset(s, off).Some? ==> Extends(s, PrependUOffset(s, off).value)
  {
    hide LE, Zeros, AlignSize, Extends, Place;
    PowersUsed();
    var s1 := Prep(s, 4, 0);
    PrepExtends(s, 4, 0);
    PlaceExtends(s1, LE(|s1.data| - off + 4, 4));
    ExtendsTransitive(s, s1, Place(s1, LE(|s1.data| - off + 4, 4)));
  }

  lemma {:induction false} UOffsetsExtend(s: State, offsets: seq<nat>)
    ensures PrependUOffsets(s, offsets).Some? ==> Extends(s, PrependUOffsets(s, offsets).value)
    decreases |offsets|
  {
    if offsets != [] {
      var first := PrependUOffset(s, offsets[|offsets| - 1]);
      UOffsetExtends(s, offsets[|offsets| - 1]);
      if first.Some? {
        UOffsetsExtend(first.value, offsets[..|offsets| - 1]);
        var all := PrependUOffsets(s, offsets);
        if all.Some? {
          ExtendsTransitive(s, first.value, all.value);
        }
      }
    }
  }

  lemma EndObjectExtends(s: State)
    ensures Extends(s, WriteVtable(s))
  {
    PowersUsed();
    EndObjectPrepends(s);
    PrependedIsSuffix(ObjectPrefix(s), s.data);
  }

  lemma StartVectorExtends(s: State, elemSize: nat, numElems: nat, alignment: pos)
    requires PowerOfTwo(alignment)
    ensures StartVector(s, elemSize, numElems, alignment).Some? ==>
      Extends(s, StartVector(s, elemSize, numElems, alignment).value)
  {
    PowersUsed();
    var n, s0 := elemSize * numElems, s.(nested := true);
    PrepExtends(s0, 4, n);
    PrepExtends(Prep(s0, 4, n), alignment, n);
    ExtendsTransitive(s, Prep(s0, 4, n), Prep(Prep(s0, 4, n), alignment, n));
  }

  lemma ListExtends(s: State, offsets: seq<nat>)
    ensures CreateVectorOfTables(s, offsets).Some? ==> Extends(s, CreateVectorOfTables(s, offsets).value)
  {
    var s1 := StartVector(s, 4, |offsets|, 4);
    PowersUsed();
    StartVectorExtends(s, 4, |offsets|, 4);
    if s1.Some? {
      UOffsetsExtend(s1.value, offsets);
      var s2 := PrependUOffsets(s1.value, offsets);
      if s2.Some? {
        ExtendsTransitive(s, s1.value, s2.value);
        PlaceExtends(s2.value, LE(|offsets|, 4));
        ExtendsTransitive(s, s2.value, Place(s2.value, LE(|offsets|, 4)));
      }
    }
  }

  lemma StringExtends(s: State, str: seq<byte>)
    ensures CreateString(s, str).Some? ==> Extends(s, CreateString(s, str).value)
  {
    PowersUsed();
    var s0 := s.(nested := true);
    var s1 := Place(Prep(s0, 4, |str| + 1), [0]);
    PrepPlaceExtends(s0, 4, |str| + 1, [0]);
    PlaceExtends(s1, str);
    ExtendsTransitive(s, s1, Place(s1, str));
    PlaceExtends(Place(s1, str), LE(|str|, 4));
    ExtendsTransitive(s, Place(s1, str), Place(Place(s1, str), LE(|str|, 4)));
  }

  lemma ByteVectorExtends(s: State, v: seq<byte>)
    ensures CreateByteVector(s, v).Some? ==> Extends(s, CreateByteVector(s, v).value)
  {
    PowersUsed();
    var s1 := Place(Prep(s.(nested := true), 4, |v|), v);
    PrepPlaceExtends(s.(nested := true), 4, |v|, v);
    PlaceExtends(s1, LE(|v|, 4));
    ExtendsTransitive(s, s1, Place(s1, LE(|v|, 4)));
  }

  lemma FinishPlainExtends(s: State, root: nat, sizePrefix: bool)
    ensures FinishPlain(s, root, sizePrefix).Some? ==> Extends(s, FinishPlain(s, root, sizePrefix).value)
  {
    var s1 := Prep(s, s.minalign, if sizePrefix then 8 else 4);
    PrepExtends(s, s.minalign, if sizePrefix then 8 else 4);
    UOffsetExtends(s1, root);
    var s2 := PrependUOffset(s1, root);
    if !s.nested && s2.Some? {
      ExtendsTransitive(s, s1, s2.value);
      if sizePrefix {
        PlaceExtends(s2.value, LE(|s2.value.data|, 4));
        ExtendsTransitive(s, s2.value, Place(s2.value, LE(|s2.value.data|, 4)));
      }
    }
  }

  lemma FinishExtends(s: State, root: nat, fid: Option<seq<byte>>, sizePrefix: bool)
    ensures Finish(s, root, fid, sizePrefix).Some? ==> Extends(s, Finish(s, root, fid, sizePrefix).value)
  {
    if fid.None? {
      FinishPlainExtends(s, root, sizePrefix);
    } else {
      var s1 := Place(Prep(s, s.minalign, if sizePrefix then 12 else 8), fid.value);
      PrepPlaceExtends(s, s.minalign, if sizePrefix then 12 else 8, fid.value);
      FinishPlainExtends(s1, root, sizePrefix);
      var s2 := Finish(s, root, fid, sizePrefix);
      if s2.Some? {
        ExtendsTransitive(s, s1, s2.value);
      }
    }
  }

  lemma SizesArePowers(k: int)
    requires IsSize(k)
    ensures PowerOfTwo(k)
  {
    PowersUsed();
  }

  lemma ScalarExtends(s: State, size: pos, x: int)
    requires IsSize(size)
    ensures Extends(s, PrependScalar(s, size, x))
  {
    hide LE, Zeros, AlignSize;
    SizesArePowers(size);
    PrepPlaceExtends(s, size, 0, LE(x, size));
  }

  /** An operation that changes nothing but the other fields after one that extends. */
  lemma RestExtends(s: State, s1: State, s2: State)
    requires Extends(s, s1) && s2.data == s1.data && s2.minalign == s1.minalign
    ensures Extends(s, s2)
  {
  }

  lemma Reflexive(s: State)
    ensures Extends(s, s)
  {
  }

  lemma ObjectOpExtends(s: State, op: Op)
    requires op.StartObjectOp? || op.ScalarSlotOp? || op.UOffsetSlotOp? || op.StructSlotOp? || op.EndObjectOp?
    requires WellTyped(op) && Apply(s, op).Some?
    ensures Extends(s, Apply(s, op).value)
  {
    hide Extends, PrependScalar, PrependUOffset, WriteVtable, PowerOfTwo, SameValue, IsSize, InType, ZeroSlots;
    var s1 := Apply(s, op).value;
    Reflexive(s);
    match op
    case StartObjectOp(_) => RestExtends(s, s, s1);
    case ScalarSlotOp(slot, size, kind, x, d) =>
      ScalarExtends(s, size, x);
      if !SameValue(kind, size, x, d) {
        RestExtends(s, PrependScalar(s, size, x), s1);
      }
    case UOffsetSlotOp(slot, x, d) =>
      UOffsetExtends(s, x);
      if x != d {
        RestExtends(s, PrependUOffset(s, x).value, s1);
      }
    case StructSlotOp(_, _, _) => RestExtends(s, s, s1);
    case EndObjectOp =>
      EndObjectExtends(s);
      RestExtends(s, WriteVtable(s), s1);
  }

  lemma WriteOpExtends(s: State, op: Op)
    requires op.PrependOp? || op.PrependUOffsetOp? || op.PrepOp? || op.PadOp? || op.FinishOp?
    requires WellTyped(op) && Apply(s, op).Some?
    ensures Extends(s, Apply(s, op).value)
  {
    hide Extends, PrependScalar, PrependUOffset, Prep, Place, Finish, PowerOfTwo, IsSize, InType, Zeros;
    match op
    case PrependOp(size, _, x) => ScalarExtends(s, size, x);
    case PrependUOffsetOp(off) => UOffsetExtends(s, off);
    case PrepOp(align, additional) => PrepExtends(s, align, additional);
    case PadOp(n) => PlaceExtends(s, Zeros(n));
    case FinishOp(root, fid, sizePrefix) => FinishExtends(s, root, fid, sizePrefix);
  }

  lemma VectorOpExtends(s: State, op: Op)
    requires op.StartVectorOp? || op.EndVectorOp? || op.VectorOfTablesOp? || op.StringOp? || op.SharedStringOp?
      || op.ByteVectorOp?
    requires WellTyped(op) && Apply(s, op).Some?
    ensures Extends(s, Apply(s, op).value)
  {
    hide Extends, StartVector, CreateVectorOfTables, CreateString, CreateByteVector, PowerOfTwo, LE;
    var s1 := Apply(s, op).value;
    match op
    case StartVectorOp(e, n, a) => StartVectorExtends(s, e, n, a);
    case EndVectorOp(n) =>
      PlaceExtends(s, LE(n, 4));
      RestExtends(s, Place(s, LE(n, 4)), s1);
    case VectorOfTablesOp(offsets) => ListExtends(s, offsets);
    case StringOp(str) => StringExtends(s, str);
    case SharedStringOp(str) =>
      StringExtends(s, str);
      Reflexive(s);
      if str !in s.shared {
        RestExtends(s, CreateString(s, str).value, s1);
      }
    case ByteVectorOp(v) => ByteVectorExtends(s, v);
  }

  /** Every operation only extends: after a handle `o` is returned, the last `o` bytes are final. */
  lemma ApplyExtends(s: State, op: Op)
    requires WellTyped(op)
    ensures Apply(s, op).Some? ==> Extends(s, Apply(s, op).value)
  {
    hide Extends, Apply, WellTyped;
    if Apply(s, op).Some? {
      if op.StartObjectOp? || op.ScalarSlotOp? || op.UOffsetSlotOp? || op.StructSlotOp? || op.EndObjectOp? {
        ObjectOpExtends(s, op);
      } else if op.PrependOp? || op.PrependUOffsetOp? || op.PrepOp? || op.PadOp? || op.FinishOp? {
        WriteOpExtends(s, op);
      } else {
        VectorOpExtends(s, op);
      }
    }
  }
}
