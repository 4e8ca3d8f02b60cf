/**
 The Go builder: a byte slice that is filled from its end and grows by doubling, moving the old
 bytes to the far end. Each method is proved against the operation of Layout with the same name,
 so what has been written does not depend on initial size, growth or stale contents.
 */
module GoBuilder {
  import opened Bits
  import opened Codec
  import opened Wrappers
  import opened Layout
  import opened Prepends
  import opened Stability
  import opened Growth
  import opened PreserveVectors
  import F = Floats

  class Builder {
    var buf: array<byte>  // the slice's backing array; its length is the slice's capacity
    var len: nat          // the slice's length
    var head: nat
    var minalign: int
    var vtable: seq<nat>
    var objectEnd: nat
    var vtables: seq<nat>
    var nested: bool
    var finished: bool
    var sharedStrings: map<seq<byte>, nat>

    ghost predicate Valid()
      reads this, buf
    {
      && head <= len <= buf.Length < LIMIT
      && PowerOfTwo(minalign)
      && Registered(buf[head..len], vtables)
    }

    /** What has been written, whatever the capacity. */
    ghost function Written(): State
      reads this, buf
      requires Valid()
    {
      State(buf[head..len], minalign, vtable, objectEnd, vtables, nested, finished, sharedStrings)
    }

    constructor NewBuilder(initialSize: int)
      requires initialSize < LIMIT
      ensures Valid() && fresh(buf) && Written() == INITIAL && head == len
    {
      var size := if initialSize <= 0 then 0 else initialSize;
      buf := new byte[size](_ => 0);
      len := size;
      head := size;
      minalign := 1;
      vtable := [];
      objectEnd := 0;
      vtables := [];
      nested := false;
      finished := false;
      sharedStrings := map[];
    }

    /** Reset takes the slice to its full capacity over whatever bytes are there. */
    method Reset()
      requires Valid()
      modifies this
      ensures Valid() && buf == old(buf) && len == buf.Length && head == len
      ensures Written() == INITIAL.(objectEnd := old(objectEnd))
    {
      len := buf.Length;
      vtables := [];
      vtable := [];
      sharedStrings := map[];
      head := len;
      minalign := 1;
      nested := false;
      finished := false;
    }

    method Offset() returns (o: nat)
      requires Valid()
      ensures o == |Written().data|
    {
      o := len - head;
    }

    method FinishedBytes() returns (r: Option<seq<byte>>)
      requires Valid()
      ensures r == if finished then Some(Written().data) else None
    {
      r := if finished then Some(buf[head..len]) else None;
    }

    // ---- Space ------------------------------------------------------------------

    /** `b.Bytes[:newLen]` within the capacity, else `append`; the capacity append leaves is its own choice. */
    method Reslice(newLen: nat)
      requires len <= newLen && len <= buf.Length < LIMIT && newLen < LIMIT
      modifies this`buf, this`len
      ensures newLen == len <= buf.Length < LIMIT && (buf == old(buf) || fresh(buf))
      ensures buf[..old(len)] == old(buf[..len])
    {
      if buf.Length < newLen {
        var capacity: nat :| newLen <= capacity < LIMIT;
        var source, n := buf, len;
        buf := new byte[capacity](i requires 0 <= i < capacity reads source =>
          if i < n && i < source.Length then source[i] else 0);
      }
      len := newLen;
    }

    /** Doubles the slice and moves its contents to the far end. */
    method GrowByteBuffer() returns (r: Outcome)
      requires len <= buf.Length < LIMIT
      modifies this`buf, this`len, buf
      ensures len <= buf.Length < LIMIT && (buf == old(buf) || fresh(buf))
      ensures r.Fail? <==> old(len) >= 0x4000_0000
      ensures r.Fail? ==> r.panic == TooLarge && len == old(len) && buf == old(buf) && buf[..] == old(buf[..])
      ensures r.Pass? ==> len == (if old(len) == 0 then 1 else 2 * old(len))
      ensures r.Pass? ==> buf[len - old(len)..len] == old(buf[..len])
    {
      hide And, Pow2;
      TopBits(len);
      if And(len, 0xC000_0000) != 0 {
        return Fail(TooLarge);
      }
      var newLen := len * 2;
      if newLen == 0 {
        newLen := 1;
      }
      ghost var before := buf[..len];
      Reslice(newLen);
      assert buf[..|before|] == before;
      var middle := newLen / 2;
      forall i | 0 <= i < middle {
        buf[middle + i] := buf[i];
      }
      assert newLen - |before| == middle || |before| == 0;
      assert buf[len - |before|..len] == before;
      r := Pass;
    }

    /** One round of the growth loop: the data keeps its place at the far end. */
    method GrowOnce() returns (r: Outcome)
      requires Valid()
      modifies this`buf, this`len, this`head, buf
      ensures Valid() && (buf == old(buf) || fresh(buf)) && len >= old(len) && Written() == old(Written())
      ensures r.Pass? ==> len > old(len)
      ensures r.Fail? ==> r.panic == TooLarge && head == old(head) && len == old(len) >= 0x4000_0000
    {
      hide PowerOfTwo, VtableInBounds, Registered;
      var oldBufSize := len;
      ghost var front, data := buf[..len], buf[head..len];
      assert data == front[head..];
      :- GrowByteBuffer();
      ghost var moved := len - oldBufSize;
      assert buf[moved..len] == front;
      assert buf[moved..len][head..] == buf[moved + head..len];
      head := head + (len - oldBufSize);
      r := Pass;
    }

    /** The growth loop ends with more than `need` bytes free, or at the limit. */
    method Reallocate(need: nat) returns (r: Outcome)
      requires Valid()
      modifies this`buf, this`len, this`head, buf
      ensures Valid() && (buf == old(buf) || fresh(buf)) && len >= old(len)
      ensures Written() == old(Written())
      ensures r.Pass? ==> head > need
      ensures r.Fail? ==> r.panic == TooLarge && |Written().data| + need >= 0x4000_0000
    {
      hide PowerOfTwo, VtableInBounds, Registered;
      while head <= need
        invariant Valid() && (buf == old(buf) || fresh(buf)) && len >= old(len) && Written() == old(Written())
        decreases LIMIT - len
      {
        :- GrowOnce();
      }
      r := Pass;
    }

    /** Makes room and aligns: afterwards `size + additional` bytes and more are free in front. */
    method Prep(size: int, additional: nat) returns (r: Outcome)
      requires Valid() && PowerOfTwo(size)
      modifies this, buf
      ensures Valid() && (buf == old(buf) || fresh(buf)) && len >= old(len)
      ensures r.Pass? ==> Written() == Layout.Prep(old(Written()), size, additional) && head > size + additional
      ensures r.Fail? ==> r.panic == TooLarge && Written().data == old(Written()).data
      ensures r.Fail? ==> |Written().data| + 2 * size + additional > 0x4000_0000
    {
      if size > minalign {
        minalign := size;
      }
      var alignSize := And(Complement(len - head + additional) + 1, size - 1);
      AlignSizeAligns(|Written().data| + additional, size);
      :- Reallocate(alignSize + size + additional);
      Pad(alignSize);
      r := Pass;
    }

    /** Places zeros; like every Place method it does not check for space. */
    method Pad(n: nat)
      requires Valid() && n <= head
      modifies this`head, buf
      ensures Valid() && buf == old(buf) && head == old(head) - n
      ensures Written() == Layout.Place(old(Written()), Zeros(n))
    {
      var i := 0;
      while i < n
        invariant 0 <= i <= n && Valid() && head == old(head) - i
        invariant Written() == Layout.Place(old(Written()), Zeros(i))
      {
        PlaceScalar(1, 0);
        ZeroWord();
        assert LE(0, 1) + Zeros(i) == Zeros(i + 1);
        Reassociate(LE(0, 1), Zeros(i), old(Written()).data);
        i := i + 1;
      }
    }

    /** PlaceBool .. PlaceFloat64, PlaceVOffsetT, PlaceSOffsetT, PlaceUOffsetT. */
    method PlaceScalar(size: nat, x: int)
      requires Valid() && size <= head
      modifies this`head, buf
      ensures Valid() && buf == old(buf) && head == old(head) - size
      ensures Written() == Layout.Place(old(Written()), LE(x, size))
    {
      ghost var data := buf[head..len];
      head := head - size;
      WriteWord(buf, head, x, size);
      assert buf[head..len] == LE(x, size) + data;
      RegisteredExtends(data, buf[head..len], vtables);
    }

    /** The copy of a string or byte vector to the front. */
    method PlaceBytes(bytes: seq<byte>)
      requires Valid() && |bytes| <= head
      modifies this`head, buf
      ensures Valid() && buf == old(buf) && head == old(head) - |bytes|
      ensures Written() == Layout.Place(old(Written()), bytes)
    {
      ghost var data := buf[head..len];
      head := head - |bytes|;
      forall i | 0 <= i < |bytes| {
        buf[head + i] := bytes[i];
      }
      assert buf[head..len] == bytes + data;
      RegisteredExtends(data, buf[head..len], vtables);
    }

    // ---- Aligned words ------------------------------------------------------------

    /** PrependBool .. PrependFloat64, PrependVOffsetT. */
    method PrependScalar(size: int, x: int) returns (r: Outcome)
      requires Valid() && PowerOfTwo(size)
      modifies this, buf
      ensures Valid() && (buf == old(buf) || fresh(buf)) && len >= old(len)
      ensures r.Pass? ==> Written() == Layout.PrependScalar(old(Written()), size, x) && head >= 1
      ensures r.Fail? ==> r.panic == TooLarge && |Written().data| + 2 * size > 0x4000_0000
    {
      hide VtableInBounds;
      :- Prep(size, 0);
      PlaceScalar(size, x);
      r := Pass;
    }

    method PrependUOffset(off: nat) returns (r: Outcome)
      requires Valid()
      modifies this, buf
      ensures Valid() && (buf == old(buf) || fresh(buf)) && len >= old(len)
      ensures r.Pass? ==> Layout.PrependUOffset(old(Written()), off) == Some(Written()) && head >= 1
      ensures r == Fail(Misuse) ==> Layout.PrependUOffset(old(Written()), off) == None
      ensures r == Fail(TooLarge) ==> |Written().data| + 8 > 0x4000_0000
    {
      PowersUsed();
      :- Prep(4, 0);
      var offset := Offset();
      if !(off <= offset) {
        return Fail(Misuse);
      }
      PlaceScalar(4, offset - off + 4);
      r := Pass;
    }

    // ---- Objects --------------------------------------------------------------------

    /** A vtable's size has to fit sixteen bits, which bounds the number of fields. */
    method StartObject(numFields: nat) returns (r: Outcome)
      requires Valid() && numFields < 0x7ffe
      modifies this
      ensures Valid() && buf == old(buf) && len == old(len) && head == old(head)
      ensures r.Pass? ==> Layout.StartObject(old(Written()), numFields) == Some(Written())
      ensures r.Fail? ==> r.panic == Misuse && Layout.StartObject(old(Written()), numFields) == None
    {
      if nested {
        return Fail(Misuse);
      }
      nested := true;
      vtable := ZeroSlots(numFields);
      objectEnd := len - head;
      r := Pass;
    }

    method Slot(slotNum: nat) returns (r: Outcome)
      requires Valid()
      modifies this`vtable
      ensures Valid()
      ensures r.Pass? ==> Layout.Slot(old(Written()), slotNum) == Some(Written())
      ensures r.Fail? ==> r.panic == Misuse && Layout.Slot(old(Written()), slotNum) == None
    {
      if slotNum >= |vtable| {
        return Fail(Misuse);
      }
      vtable := vtable[slotNum := len - head];
      r := Pass;
    }

    /** PrependBoolSlot .. PrependFloat64Slot. */
    method PrependScalarSlot(slotNum: nat, size: int, kind: Kind, x: int, d: int) returns (r: Outcome)
      requires Valid() && PowerOfTwo(size)
      modifies this, buf
      ensures Valid() && (buf == old(buf) || fresh(buf)) && len >= old(len)
      ensures r.Pass? ==> ScalarSlot(old(Written()), slotNum, size, kind, x, d) == Some(Written())
      ensures r.Pass? ==> Written() == old(Written()) || head >= 1
      ensures r == Fail(Misuse) ==> ScalarSlot(old(Written()), slotNum, size, kind, x, d) == None
      ensures r == Fail(TooLarge) ==> |Written().data| + 2 * size > 0x4000_0000
      ensures r.Pass? && InType(kind, size, x) && InType(kind, size, d) ==>
        (Written() == old(Written()) <==> F.Equals(kind, size, x, d))
    {
      hide SameValue, F.Equals, InType, LE, AlignSize, Zeros, Layout.PrependScalar, Registered;
      if InType(kind, size, x) && InType(kind, size, d) {
        F.SameSlot(Written(), slotNum, size, kind, x, d);
      }
      if !SameValue(kind, size, x, d) {
        :- PrependScalar(size, x);
        :- Slot(slotNum);
      }
      r := Pass;
    }

    method PrependUOffsetSlot(slotNum: nat, x: nat, d: nat) returns (r: Outcome)
      requires Valid()
      modifies this, buf
      ensures Valid() && (buf == old(buf) || fresh(buf)) && len >= old(len)
      ensures r.Pass? ==> UOffsetSlot(old(Written()), slotNum, x, d) == Some(Written())
      ensures r.Pass? ==> Written() == old(Written()) || head >= 1
      ensures r == Fail(Misuse) ==> UOffsetSlot(old(Written()), slotNum, x, d) == None
      ensures r == Fail(TooLarge) ==> |Written().data| + 8 > 0x4000_0000
    {
      if x != d {
        :- PrependUOffset(x);
        :- Slot(slotNum);
      }
      r := Pass;
    }

    method PrependStructSlot(slotNum: nat, x: nat, d: nat) returns (r: Outcome)
      requires Valid()
      modifies this`vtable
      ensures Valid()
      ensures r.Pass? ==> StructSlot(old(Written()), slotNum, x, d) == Some(Written())
      ensures r.Fail? ==> r.panic == Misuse && StructSlot(old(Written()), slotNum, x, d) == None
    {
      if x != d {
        if !nested {
          return Fail(Misuse);
        }
        if x != len - head {
          return Fail(Misuse);
        }
        :- Slot(slotNum);
      }
      r := Pass;
    }

    /** vtableEqual: compares an unwritten vtable with a written one. */
    static method VtableEqual(a: seq<nat>, objectStart: nat, b: seq<byte>) returns (equal: bool)
      ensures equal == Layout.VtableEqual(a, objectStart, b)
    {
      if |a| * 2 != |b| {
        return false;
      }
      for i := 0 to |a|
        invariant forall j :: 0 <= j < i ==> EntryEqual(a[j], objectStart, Get(b, 2 * j, 2))
      {
        UnrolledLoads(b[2 * i..2 * i + 2]);
        assert b[2 * i..2 * i + 2][0..2] == b[2 * i..2 * i + 2];
        var x := GetUint16(b[2 * i..2 * i + 2]);
        if x == 0 && a[i] == 0 {
          continue;
        }
        var y := objectStart - a[i];
        if x != y {
          assert !EntryEqual(a[i], objectStart, Get(b, 2 * i, 2));
          return false;
        }
      }
      return true;
    }

    /** The slice of a registered vtable that holds its field entries. */
    method FieldsOf(vt2Offset: nat) returns (vt2: seq<byte>)
      requires Valid() && VtableInBounds(Written().data, vt2Offset)
      ensures vt2 == VtableFields(Written().data, vt2Offset)
    {
      ghost var data, at := Written().data, |Written().data| - vt2Offset;
      var vt2Start := len - vt2Offset;
      UnrolledLoads(buf[vt2Start..len]);
      assert buf[vt2Start..len][0..2] == buf[vt2Start..vt2Start + 2];
      InnerSlice(buf[..], head, len, at, at + 2);
      var vt2Len := GetUint16(buf[vt2Start..len]);
      assert vt2Len == Get(data, at, 2);
      InnerSlice(buf[..], head, len, at + 4, at + vt2Len);
      vt2 := buf[vt2Start + 4..vt2Start + vt2Len];
    }

    lemma InnerSlice(all: seq<byte>, head: nat, len: nat, from: nat, to: nat)
      requires head <= len <= |all| && from <= to <= len - head
      ensures all[head..len][from..to] == all[head + from..head + to]
    {
      var a, b := all[head..len][from..to], all[head + from..head + to];
      assert |a| == |b| && forall i :: 0 <= i < |a| ==> a[i] == b[i];
    }

    /** The search of WriteVtable, from the most recent registered vtable back. */
    method FindVtable(vt: seq<nat>, objectOffset: nat) returns (existing: nat)
      requires Valid()
      ensures existing == Layout.FindVtable(Written().data, vtables, vt, objectOffset)
    {
      hide Layout.VtableEqual, VtableInBounds;
      ghost var data := Written().data;
      var i := |vtables|;
      assert vtables[..i] == vtables;
      while i > 0
        invariant 0 <= i <= |vtables|
        invariant Layout.FindVtable(data, vtables[..i], vt, objectOffset)
          == Layout.FindVtable(data, vtables, vt, objectOffset)
      {
        i := i - 1;
        assert vtables[..i + 1][..i] == vtables[..i];
        assert VtableInBounds(data, vtables[i]);
        var vt2 := FieldsOf(vtables[i]);
        var equal := VtableEqual(vt, objectOffset, vt2);
        if equal {
          return vtables[i];
        }
      }
      existing := 0;
    }

    method TrimVtable()
      requires Valid()
      modifies this`vtable
      ensures Valid() && Written() == old(Written()).(vtable := Trim(old(vtable)))
    {
      var i := |vtable|;
      assert vtable[..i] == vtable;
      while i > 0 && vtable[i - 1] == 0
        invariant 0 <= i <= |vtable|
        invariant Trim(vtable[..i]) == Trim(vtable)
      {
        i := i - 1;
        assert vtable[..i + 1][..i] == vtable[..i];
      }
      vtable := vtable[..i];
    }

    /** The vtable's entries, last first, so that they end up in order. */
    method PrependEntries(vt: seq<nat>, objectOffset: nat) returns (r: Outcome)
      requires Valid() && forall i :: 0 <= i < |vt| ==> vt[i] <= objectOffset
      modifies this, buf
      ensures Valid() && (buf == old(buf) || fresh(buf)) && len >= old(len)
      ensures r.Pass? ==> Written() == Layout.PrependEntries(old(Written()), vt, objectOffset)
      ensures r.Pass? ==> Written() == old(Written()) || head >= 1
      ensures r.Fail? ==> r.panic == TooLarge && |Written().data| + 4 > 0x4000_0000
    {
      hide VtableInBounds, PowerOfTwo, Registered, LE, Zeros, AlignSize;
      PowersUsed();
      ghost var s := Written();
      var i := |vt|;
      assert vt[..i] == vt;
      while i > 0
        invariant 0 <= i <= |vt| && Valid() && (buf == old(buf) || fresh(buf)) && len >= old(len)
        invariant i == |vt| ==> Written() == s
        invariant i < |vt| ==> head >= 1
        invariant Layout.PrependEntries(Written(), vt[..i], objectOffset) == Layout.PrependEntries(s, vt, objectOffset)
      {
        i := i - 1;
        assert vt[..i + 1][..i] == vt[..i];
        var off := 0;
        if vt[i] != 0 {
          off := objectOffset - vt[i];
        }
        :- PrependScalar(2, off);
      }
      r := Pass;
    }

    /** Ends the fields: the word for the offset to the vtable, still a placeholder. */
    method BeginVtable() returns (r: Outcome)
      requires Valid()
      modifies this, buf
      ensures Valid() && (buf == old(buf) || fresh(buf)) && len >= old(len)
      ensures r.Pass? ==> Written() == Layout.BeginVtable(old(Written())) && head >= 1
      ensures r.Fail? ==> r.panic == TooLarge && |Written().data| + 8 > 0x4000_0000
    {
      PowersUsed();
      :- Prep(4, 0);
      PlaceScalar(4, len - head + 4);
      r := Pass;
    }

    lemma ScalarKeeps(s: State, size: pos, x: int)
      ensures Layout.PrependScalar(s, size, x).vtable == s.vtable
    {
    }

    /** A vtable in front: entries, object size, own size. */
    method AppendVtable(objectOffset: nat) returns (r: Outcome)
      requires Valid() && forall i :: 0 <= i < |vtable| ==> vtable[i] <= objectOffset
      modifies this, buf
      ensures Valid() && (buf == old(buf) || fresh(buf)) && len >= old(len)
      ensures r.Pass? ==> Written() == Layout.AppendVtable(old(Written()), old(vtable), objectOffset, old(objectEnd))
      ensures r.Pass? ==> head >= 1
      ensures r.Fail? ==> r.panic == TooLarge && |Written().data| + 4 > 0x4000_0000
    {
      hide Layout.PrependEntries, Layout.PrependScalar, Registered, PowerOfTwo, VtableInBounds;
      PowersUsed();
      PrependEntriesGrows(Written(), vtable, objectOffset);
      :- PrependEntries(vtable, objectOffset);
      assert Written().vtable == old(vtable) && Written().objectEnd == old(objectEnd);
      ScalarKeeps(Written(), 2, objectOffset - objectEnd);
      :- PrependScalar(2, objectOffset - objectEnd);
      assert Written().vtable == old(vtable);
      :- PrependScalar(2, (|vtable| + 2) * 2);
      r := Pass;
    }

    /** A store in the data, seen from the whole buffer and from the data. */
    lemma PutInside(all: seq<byte>, head: nat, len: nat, at: nat, word: seq<byte>)
      requires head <= at && at + |word| <= len <= |all|
      ensures Put(all, at, word)[head..len] == Put(all[head..len], at - head, word)
    {
    }

    /** Writes the offset to the vtable `v` into the object's placeholder. */
    method PatchObject(objectOffset: nat, v: nat)
      requires head <= len <= buf.Length && 4 <= objectOffset <= len - head
      modifies buf
      ensures buf[head..len] == Patch(old(buf[head..len]), objectOffset, v)
    {
      hide LE, Put;
      ghost var data, all := buf[head..len], buf[..];
      var objectStart := len - objectOffset;
      WriteWord(buf, objectStart, v - objectOffset, 4);
      PutInside(all, head, len, objectStart, LE(v - objectOffset, 4));
      assert buf[head..len] == buf[..][head..len];
    }

    /** No equal vtable: write this one, point the object at it, register it. */
    method FinishWithNewVtable(objectOffset: nat) returns (r: Outcome)
      requires Valid() && (forall i :: 0 <= i < |vtable| ==> vtable[i] <= objectOffset)
      requires 4 <= objectOffset <= |Written().data|
      requires var s1 := Layout.FinishWithNewVtable(Written(), vtable, objectOffset); Registered(s1.data, s1.vtables)
      modifies this, buf
      ensures Valid() && (buf == old(buf) || fresh(buf)) && len >= old(len)
      ensures r.Pass? ==> Written() == Layout.FinishWithNewVtable(old(Written()), old(vtable), objectOffset)
      ensures r.Pass? ==> head >= 1
      ensures r.Fail? ==> r.panic == TooLarge && |Written().data| + 4 > 0x4000_0000
    {
      hide Layout.AppendVtable, LE, VtableInBounds, Patch;
      AppendVtableGrows(Written(), vtable, objectOffset, objectEnd);
      :- AppendVtable(objectOffset);
      ghost var s := Written();
      PatchObject(objectOffset, len - head);
      vtables := vtables + [len - head];
      vtable := [];
      r := Pass;
    }

    /** An equal vtable exists: point the object at it. */
    method FinishWithSharedVtable(objectOffset: nat, existing: nat)
      requires Valid() && objectOffset == |Written().data| >= 4
      requires Registered(Patch(Written().data, objectOffset, existing), vtables)
      modifies this, buf
      ensures Valid() && buf == old(buf) && len == old(len) && head == old(head)
      ensures Written() == Layout.FinishWithSharedVtable(old(Written()), objectOffset, existing)
    {
      head := len - objectOffset;
      PatchObject(objectOffset, existing);
      vtable := [];
    }

    /** The object's slots fit a vtable, and lie in the data. */
    ghost predicate Endable()
      reads this, buf
      requires Valid()
    {
      |vtable| < 0x7ffe && forall i :: 0 <= i < |vtable| ==> vtable[i] <= len - head
    }

    method WriteVtable() returns (r: Outcome, objectOffset: nat)
      requires Valid() && Endable()
      modifies this, buf
      ensures Valid() && (buf == old(buf) || fresh(buf)) && len >= old(len)
      ensures r.Pass? ==> Written() == Layout.WriteVtable(old(Written())) && head >= 1
      ensures r.Pass? ==> objectOffset == ObjectOffset(old(Written()))
      ensures r.Fail? ==> r.panic == TooLarge && |Written().data| + 8 > 0x4000_0000
    {
      hide VtableInBounds, LE, Zeros, AlignSize, Layout.FindVtable, Layout.FinishWithNewVtable, Patch, PowerOfTwo;
      WriteVtableRegisters(Written());
      TrimKeeps(vtable);
      objectOffset := 0;
      :- BeginVtable();
      objectOffset := len - head;
      TrimVtable();
      var existing := FindVtable(vtable, objectOffset);
      if existing == 0 {
        :- FinishWithNewVtable(objectOffset);
      } else {
        FinishWithSharedVtable(objectOffset, existing);
      }
      r := Pass;
    }

    method EndObject() returns (r: Outcome, n: nat)
      requires Valid() && Endable()
      modifies this, buf
      ensures Valid() && (buf == old(buf) || fresh(buf)) && len >= old(len)
      ensures r.Pass? ==> Layout.EndObject(old(Written())) == Some(Written()) && head >= 1
      ensures r.Pass? ==> n == ObjectOffset(old(Written()))
      ensures r == Fail(Misuse) ==> Layout.EndObject(old(Written())) == None
      ensures r == Fail(TooLarge) ==> |Written().data| + 8 > 0x4000_0000
    {
      n := 0;
      if !nested {
        return Fail(Misuse), 0;
      }
      n :- WriteVtable();
      nested := false;
      r := Pass;
    }

    // ---- Vectors and strings -----------------------------------------------------------

    /** Reserves the elements and the length word: both fit without growing again. */
    method StartVector(elemSize: nat, numElems: nat, alignment: int) returns (r: Outcome)
      requires Valid() && PowerOfTwo(alignment)
      modifies this, buf
      ensures Valid() && (buf == old(buf) || fresh(buf)) && len >= old(len)
      ensures r.Pass? ==> Layout.StartVector(old(Written()), elemSize, numElems, alignment) == Some(Written())
      ensures r.Pass? ==> head >= elemSize * numElems + 5
      ensures r == Fail(Misuse) ==> Layout.StartVector(old(Written()), elemSize, numElems, alignment) == None
      ensures r == Fail(TooLarge) ==> |Written().data| + 2 * alignment + 8 + elemSize * numElems > 0x4000_0000
    {
      if nested {
        return Fail(Misuse);
      }
      PowersUsed();
      nested := true;
      var bytes := elemSize * numElems;
      ghost var s := Written();
      :- Prep(4, bytes);
      ghost var head1, s1 := head, Written();
      SecondPrep(s, bytes, alignment);
      :- Prep(alignment, bytes);
      assert alignment <= 4 ==> |Written().data| == |s1.data| && head >= head1;
      r := Pass;
    }

    /** Needs the room that StartVector reserved. */
    method EndVector(vectorNumElems: nat) returns (r: Outcome, n: nat)
      requires Valid() && 4 <= head
      modifies this, buf
      ensures Valid() && buf == old(buf) && len == old(len)
      ensures r.Pass? ==> Layout.EndVector(old(Written()), vectorNumElems) == Some(Written()) && n == |Written().data|
      ensures r.Fail? ==> r.panic == Misuse && Layout.EndVector(old(Written()), vectorNumElems) == None
    {
      if !nested {
        return Fail(Misuse), 0;
      }
      PlaceScalar(4, vectorNumElems);
      nested := false;
      return Pass, len - head;
    }

    /** The loop of CreateVectorOfTables. */
    method PrependUOffsets(offsets: seq<nat>) returns (r: Outcome)
      requires Valid()
      modifies this, buf
      ensures Valid() && (buf == old(buf) || fresh(buf)) && len >= old(len)
      ensures r.Pass? ==> Layout.PrependUOffsets(old(Written()), offsets) == Some(Written())
      ensures r == Fail(Misuse) ==> Layout.PrependUOffsets(old(Written()), offsets) == None
      ensures r == Fail(TooLarge) ==> |Written().data| + 8 > 0x4000_0000
    {
      ghost var s := Written();
      var i := |offsets|;
      assert offsets[..i] == offsets;
      while i > 0
        invariant 0 <= i <= |offsets| && Valid() && (buf == old(buf) || fresh(buf)) && len >= old(len)
        invariant Layout.PrependUOffsets(Written(), offsets[..i]) == Layout.PrependUOffsets(s, offsets)
      {
        i := i - 1;
        assert offsets[..i + 1][..i] == offsets[..i];
        :- PrependUOffset(offsets[i]);
      }
      r := Pass;
    }

    method CreateVectorOfTables(offsets: seq<nat>) returns (r: Outcome, n: nat)
      requires Valid()
      modifies this, buf
      ensures Valid() && (buf == old(buf) || fresh(buf)) && len >= old(len)
      ensures r.Pass? ==> Layout.CreateVectorOfTables(old(Written()), offsets) == Some(Written())
      ensures r.Pass? ==> n == |Written().data| && head >= 1
      ensures r == Fail(Misuse) ==> Layout.CreateVectorOfTables(old(Written()), offsets) == None
      ensures r == Fail(TooLarge) ==> |Written().data| + 16 + 4 * |offsets| > 0x4000_0000
    {
      hide VtableInBounds, Layout.PrependUOffsets, LE, Zeros, AlignSize, Registered;
      n := 0;
      PowersUsed();
      ghost var s := Written();
      if nested {
        return Fail(Misuse), 0;
      }
      :- StartVector(4, |offsets|, 4);
      ghost var s1, head1 := Written(), head;
      VectorWords(s, s1, offsets);
      :- PrependUOffsets(offsets);
      assert |Written().data| == |s1.data| + 4 * |offsets|;
      assert head >= head1 - 4 * |offsets|;
      r, n := EndVector(|offsets|);
      assert r.Pass?;
    }

    /** The offsets of a vector are written where StartVector made room for them. */
    lemma VectorWords(s: State, s1: State, offsets: seq<nat>)
      requires PowerOfTwo(s.minalign) && Layout.StartVector(s, 4, |offsets|, 4) == Some(s1)
      ensures Layout.PrependUOffsets(s1, offsets).Some? ==>
        |Layout.PrependUOffsets(s1, offsets).value.data| == |s1.data| + 4 * |offsets|
      ensures Layout.PrependUOffsets(s1, offsets).Some? ==> Layout.PrependUOffsets(s1, offsets).value.nested
    {
      PowersUsed();
      StartVectorAligns(s, 4, |offsets|, 4);
      DropMultiple(|s1.data|, |offsets|);
      if Layout.PrependUOffsets(s1, offsets).Some? {
        UOffsetsWords(s1, offsets);
      }
    }

    /** CreateString and CreateByteString. */
    method CreateString(s: seq<byte>) returns (r: Outcome, n: nat)
      requires Valid()
      modifies this, buf
      ensures Valid() && (buf == old(buf) || fresh(buf)) && len >= old(len)
      ensures r.Pass? ==> Layout.CreateString(old(Written()), s) == Some(Written())
      ensures r.Pass? ==> n == |Written().data| && head >= 1
      ensures r == Fail(Misuse) ==> Layout.CreateString(old(Written()), s) == None
      ensures r == Fail(TooLarge) ==> |Written().data| + 9 + |s| > 0x4000_0000
    {
      n := 0;
      if nested {
        return Fail(Misuse), 0;
      }
      PowersUsed();
      ZeroWord();
      nested := true;
      :- Prep(4, |s| + 1);
      PlaceScalar(1, 0);
      PlaceBytes(s);
      r, n := EndVector(|s|);
    }

    method CreateByteVector(v: seq<byte>) returns (r: Outcome, n: nat)
      requires Valid()
      modifies this, buf
      ensures Valid() && (buf == old(buf) || fresh(buf)) && len >= old(len)
      ensures r.Pass? ==> Layout.CreateByteVector(old(Written()), v) == Some(Written())
      ensures r.Pass? ==> n == |Written().data| && head >= 1
      ensures r == Fail(Misuse) ==> Layout.CreateByteVector(old(Written()), v) == None
      ensures r == Fail(TooLarge) ==> |Written().data| + 8 + |v| > 0x4000_0000
    {
      n := 0;
      if nested {
        return Fail(Misuse), 0;
      }
      PowersUsed();
      nested := true;
      :- Prep(4, |v|);
      PlaceBytes(v);
      r, n := EndVector(|v|);
    }

    method CreateSharedString(s: seq<byte>) returns (r: Outcome, n: nat)
      requires Valid()
      modifies this, buf
      ensures Valid() && (buf == old(buf) || fresh(buf)) && len >= old(len)
      ensures r.Pass? ==> Layout.CreateSharedString(old(Written()), s) == Some((Written(), n))
      ensures r.Pass? ==> Written() == old(Written()) || head >= 1
      ensures r == Fail(Misuse) ==> Layout.CreateSharedString(old(Written()), s) == None
      ensures r == Fail(TooLarge) ==> |Written().data| + 9 + |s| > 0x4000_0000
    {
      n := 0;
      if s in sharedStrings {
        return Pass, sharedStrings[s];
      }
      ghost var shared := sharedStrings;
      n :- CreateString(s);
      sharedStrings := sharedStrings[s := n];
      r := Pass;
    }

    // ---- Finishing -----------------------------------------------------------------------

    /**
     Finish and FinishSizePrefixed; the size prefix has its room only if something was aligned to four,
     as every table is.
     */
    method FinishPlain(rootTable: nat, sizePrefix: bool) returns (r: Outcome)
      requires Valid() && (sizePrefix ==> minalign >= 4)
      modifies this, buf
      ensures Valid() && (buf == old(buf) || fresh(buf)) && len >= old(len)
      ensures r.Pass?
        ==> Layout.FinishPlain(old(Written()), rootTable, sizePrefix) == Some(Written()) && finished && head >= 1
      ensures r == Fail(Misuse) ==> Layout.FinishPlain(old(Written()), rootTable, sizePrefix) == None
      ensures r == Fail(TooLarge) ==> |Written().data| + 2 * old(minalign) + 8 > 0x4000_0000
    {
      hide Registered, PowerOfTwo, VtableInBounds, LE, Zeros, AlignSize, Layout.PrependUOffset;
      if nested {
        return Fail(Misuse);
      }
      if sizePrefix {
        :- Prep(minalign, 8);
      } else {
        :- Prep(minalign, 4);
      }
      ghost var s := Written();
      :- PrependUOffset(rootTable);
      UOffsetGrows(s, rootTable);
      if sizePrefix {
        PlaceScalar(4, len - head);
      }
      finished := true;
      r := Pass;
    }

    /** FinishWithFileIdentifier and FinishSizePrefixedWithFileIdentifier. */
    method FinishWithFileIdentifier(rootTable: nat, fid: seq<byte>, sizePrefix: bool) returns (r: Outcome)
      requires Valid() && (sizePrefix ==> minalign >= 4)
      modifies this, buf
      ensures Valid() && (buf == old(buf) || fresh(buf)) && len >= old(len)
      ensures r.Pass?
        ==> finished && head >= 1 && Layout.Finish(old(Written()), rootTable, Some(fid), sizePrefix) == Some(Written())
      ensures r == Fail(Misuse) ==> Layout.Finish(old(Written()), rootTable, Some(fid), sizePrefix) == None
      ensures r == Fail(TooLarge) ==> |Written().data| + 2 * old(minalign) + 12 > 0x4000_0000
    {
      hide Layout.FinishPlain;
      if |fid| != 4 {
        return Fail(Misuse);
      }
      var additional := 8;
      if sizePrefix {
        additional := 12;
      }
      ghost var s := Written();
      :- Prep(minalign, additional);
      PlaceBackwards(fid);
      assert minalign == s.minalign;
      :- FinishPlain(rootTable, sizePrefix);
      r := Pass;
    }

    /** The loop that places the file identifier byte by byte, last first. */
    method PlaceBackwards(fid: seq<byte>)
      requires Valid() && |fid| <= head
      modifies this`head, buf
      ensures Valid() && buf == old(buf) && head == old(head) - |fid|
      ensures Written() == Layout.Place(old(Written()), fid)
    {
      hide VtableInBounds, PowerOfTwo, LE, Registered;
      ghost var s := Written();
      var i := |fid|;
      assert fid[i..] + s.data == s.data;
      while i > 0
        invariant 0 <= i <= |fid| && Valid() && head == old(head) - (|fid| - i)
        invariant Written() == Layout.Place(s, fid[i..])
      {
        i := i - 1;
        ByteWord(fid[i]);
        PlaceScalar(1, fid[i]);
        PlacedTail(s, fid, i);
      }
    }

    lemma PlacedTail(s: State, fid: seq<byte>, i: nat)
      requires i < |fid|
      ensures Layout.Place(Layout.Place(s, fid[i + 1..]), [fid[i]]) == Layout.Place(s, fid[i..])
    {
      assert fid[i..] == [fid[i]] + fid[i + 1..];
      Reassociate([fid[i]], fid[i + 1..], s.data);
    }
  }
}
