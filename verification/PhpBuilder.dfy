/**
 The PHP builder: a byte string that doubles, copied to the far end, and an end of an object that
 writes the vtable, searches the earlier ones byte by byte, and takes it back on a match. Each
 method is proved against the function of PhpLayout with the same name.
 */
module PhpBuilder {
  import opened Bits
  import opened Codec
  import opened Wrappers
  import opened Layout
  import opened Prepends
  import opened Growth
  import opened PhpBuffer
  import PhpObjects
  import P = PhpLayout

  // ---- What endObject needs of the registered vtables -----------------------------------

  /** A whole vtable at the front, with a size that reads the same signed and unsigned. */
  ghost predicate FrontIsShort(data: seq<byte>) {
    VtableInBounds(data, |data|) && Get(data, 0, 2) < 0x8000 && Get(data, 0, 2) % 2 == 0
  }

  lemma ShortVtableInBounds(vt: seq<nat>, o: nat, oe: nat, rest: seq<byte>)
    requires P.IsShort((|vt| + 2) * 2)
    ensures var data := VtableBytes(vt, o, oe) + rest; FrontIsShort(data)
  {
    NewVtableInBounds(vt, o, oe, rest);
    var data := VtableBytes(vt, o, oe) + rest;
    Widths();
    LoadAfterStoreUnsigned((|vt| + 2) * 2, 2);
    assert data[0..2] == LE((|vt| + 2) * 2, 2);
  }

  /** The vtable that endObject puts in front, before it looks for an equal one. */
  lemma TrialRegisters(s: State, s4: State)
    requires Registered(s.data, s.vtables)
    requires P.AddVtable(PrependScalar(s, 4, 0), Trim(s.vtable), ObjectOffset(s), s.objectEnd) == Some(s4)
    ensures s4 == PhpObjects.Trial(s) && |PrependScalar(s, 4, 0).data| == ObjectOffset(s)
      && 4 <= ObjectOffset(s) <= |s4.data|
    ensures Registered(s4.data, s4.vtables)
    ensures FrontIsShort(s4.data) && P.IsShort((|Trim(s.vtable)| + 2) * 2)
  {
    hide LE, Zeros, AlignSize, Trim, VtableBytes, P.AddVtable, VtableInBounds, PrependScalar,
      PhpObjects.EntriesAreShort;
    PhpObjects.PhpTries(s);
    var rest := LE(0, 4) + (Zeros(PadFor(s, 4, 0)) + s.data);
    ShortVtableInBounds(Trim(s.vtable), ObjectOffset(s), s.objectEnd, rest);
    var front := VtableBytes(Trim(s.vtable), ObjectOffset(s), s.objectEnd) + (LE(0, 4) + Zeros(PadFor(s, 4, 0)));
    assert s4.data == front + s.data;
    PrependedIsSuffix(front, s.data);
    RegisteredExtends(s.data, s4.data, s.vtables);
  }

  lemma EndedRegisters(s: State, v: nat, fresh_: bool)
    requires Registered(s.data, s.vtables)
    requires fresh_ ==> v == PhpObjects.NewVtableAt(s) && P.IsShort((|Trim(s.vtable)| + 2) * 2)
    ensures var s1 := PhpObjects.EndedWith(s, v, fresh_); Registered(s1.data, s1.vtables)
  {
    hide LE, Zeros, AlignSize, Trim, VtableInBounds;
    var p := if fresh_ then VtableBytes(Trim(s.vtable), ObjectOffset(s), s.objectEnd) else [];
    var s1 := PhpObjects.EndedWith(s, v, fresh_);
    var word, z := LE(v - ObjectOffset(s), 4), Zeros(PadFor(s, 4, 0));
    assert s1.data == p + word + z + s.data;
    PrependedIsSuffix(p + word + z, s.data);
    RegisteredExtends(s.data, s1.data, s.vtables);
    if fresh_ {
      assert s1.data == p + (word + z + s.data);
      ShortVtableInBounds(Trim(s.vtable), ObjectOffset(s), s.objectEnd, word + z + s.data);
      assert |s1.data| == v;
    }
  }

  /** Both ends of the search leave every registered vtable whole. */
  lemma SettleRegisters(s: State, existing: nat)
    requires Registered(s.data, s.vtables) && P.IsShort((|Trim(s.vtable)| + 2) * 2)
    ensures 4 <= ObjectOffset(s) <= |PhpObjects.Trial(s).data|
    ensures var r := P.RollBack(PhpObjects.Trial(s), ObjectOffset(s), existing);
      r.Some? ==> Registered(r.value.data, r.value.vtables)
    ensures var r := P.Keep(PhpObjects.Trial(s), ObjectOffset(s)); r.Some? ==> Registered(r.value.data, r.value.vtables)
  {
    hide Trim, VtableInBounds, LE, Zeros, AlignSize, VtableBytes, Registered, PhpObjects.EndedWith;
    if P.IsInt(existing - ObjectOffset(s)) {
      PhpObjects.RollsBack(s, existing);
      EndedRegisters(s, existing, false);
    }
    if P.IsInt(PhpObjects.NewVtableAt(s) - ObjectOffset(s)) {
      PhpObjects.Keeps(s);
      EndedRegisters(s, PhpObjects.NewVtableAt(s), true);
    }
  }

  // ---- Reading in the buffer and in its useful part ------------------------------------------

  lemma SliceReads(buffer: seq<byte>, space: nat, at: nat)
    requires space <= at && at + 2 <= |buffer|
    ensures Get(buffer, at, 2) == Get(buffer[space..], at - space, 2)
  {
    assert buffer[at..at + 2] == buffer[space..][at - space..at - space + 2];
  }

  lemma SliceShorts(buffer: seq<byte>, space: nat, at: nat, n: nat)
    requires space <= at <= |buffer| && at + n <= |buffer| && space + n <= |buffer| && n % 2 == 0
    ensures P.SameShorts(buffer, at, space, n) <==> P.SameShorts(buffer[space..], at - space, 0, n)
  {
    hide P.ShortsEqual;
    var inner, a := buffer[space..], at - space;
    forall j | 1 <= j < (n + 1) / 2
      ensures P.ShortsEqual(buffer, at, space, j) == P.ShortsEqual(inner, a, 0, j)
    {
      SliceShort(buffer, space, at, n, j);
    }
    if P.SameShorts(buffer, at, space, n) {
      forall j | 1 <= j < (n + 1) / 2
        ensures P.ShortsEqual(inner, a, 0, j)
      {
        assert P.ShortsEqual(buffer, at, space, j);
      }
    }
  }

  lemma SliceShort(buffer: seq<byte>, space: nat, at: nat, n: nat, j: nat)
    requires space <= at <= |buffer| && at + n <= |buffer| && space + n <= |buffer| && n % 2 == 0
      && 1 <= j < (n + 1) / 2
    ensures P.ShortsEqual(buffer, at, space, j) == P.ShortsEqual(buffer[space..], at - space, 0, j)
  {
    SliceReads(buffer, space, at + 2 * j);
    SliceReads(buffer, space, space + 2 * j);
  }

  lemma {:induction false} AddBytesKeeps(p: P.PhpState, bytes: seq<byte>)
    ensures P.AddBytes(p, bytes).st.minalign == p.st.minalign
    decreases |bytes|
  {
    if bytes != [] {
      AddBytesKeeps(P.AddByte(p, bytes[|bytes| - 1]), bytes[..|bytes| - 1]);
    }
  }

  lemma PutBehind(buffer: seq<byte>, space: nat, at: nat, word: seq<byte>)
    requires space <= at && at + |word| <= |buffer|
    ensures Put(buffer, at, word)[space..] == Put(buffer[space..], at - space, word)
  {
  }

  class FlatbufferBuilder {
    var bb: array<byte>
    var space: nat
    var minalign: int
    var vtable: seq<nat>  // the slots in use; empty when the array is null
    var stray: bool       // whether the array has entries past those in use
    var nested: bool
    var objectStart: nat
    var vtables: seq<nat>
    var numVtables: nat
    var vectorNumElems: nat
    var forceDefaults: bool

    ghost predicate Valid()
      reads this, bb
    {
      && space <= bb.Length && 1 <= bb.Length < LIMIT
      && PowerOfTwo(minalign) && numVtables <= |vtables|
      && Registered(bb[space..], vtables[..numVtables])
    }

    /** What has been written, whatever the capacity. */
    ghost function Written(): P.PhpState
      reads this, bb
      requires Valid()
    {
      P.PhpState(State(bb[space..], minalign, vtable, objectStart, vtables[..numVtables], nested, false, map[]),
                 vectorNumElems, stray, forceDefaults)
    }

    constructor (initialSize: int)
      requires initialSize < LIMIT
      ensures Valid() && fresh(bb) && Written() == P.PHP_INITIAL
    {
      var size := if initialSize <= 0 then 1 else initialSize;
      space := size;
      bb := new byte[size](_ => 0);
      minalign := 1;
      vtable := [];
      stray := false;
      nested := false;
      objectStart := 0;
      vtables := [];
      numVtables := 0;
      vectorNumElems := 0;
      forceDefaults := false;
    }

    method Offset() returns (o: nat)
      requires Valid()
      ensures o == |Written().st.data|
    {
      o := bb.Length - space;
    }

    /** A copy of what has been written. */
    method SizedByteArray() returns (result: seq<byte>)
      requires Valid()
      ensures result == Written().st.data
    {
      var start, length := space, bb.Length - space;
      result := seq(length, i => 0);
      for j := 0 to length
        invariant |result| == length && forall i :: 0 <= i < j ==> result[i] == bb[start + i]
      {
        result := result[j := bb[start + j]];
      }
    }

    // ---- Space ------------------------------------------------------------------

    /** A buffer twice as long with the old bytes at its far end. */
    static method GrowByteBuffer(bb: array<byte>) returns (r: Outcome, nbb: array<byte>)
      requires 1 <= bb.Length < LIMIT
      ensures r.Fail? <==> bb.Length >= 0x4000_0000
      ensures r.Fail? ==> r.panic == TooLarge && nbb == bb
      ensures r.Pass? ==> fresh(nbb) && nbb.Length == 2 * bb.Length && nbb[bb.Length..] == bb[..]
    {
      TopBits(bb.Length);
      if And(bb.Length, 0xC000_0000) != 0 {
        return Fail(TooLarge), bb;
      }
      var newSize := bb.Length * 2;
      nbb := new byte[newSize](_ => 0);
      var i := newSize - bb.Length;
      for j := 0 to bb.Length
        invariant i == newSize - bb.Length + j
        invariant forall k :: 0 <= k < j ==> nbb[bb.Length + k] == bb[k]
      {
        nbb[i] := bb[j];
        i := i + 1;
      }
      r := Pass;
    }

    /** One round of the growth loop: the data keeps its place at the far end. */
    method GrowOnce() returns (r: Outcome)
      requires Valid()
      modifies this`bb, this`space
      ensures Valid() && (bb == old(bb) || fresh(bb)) && bb.Length >= old(bb.Length) && Written() == old(Written())
      ensures r.Pass? ==> bb.Length > old(bb.Length)
      ensures r.Fail? ==> r.panic == TooLarge && space == old(space) && bb.Length == old(bb.Length) >= 0x4000_0000
    {
      hide PowerOfTwo, VtableInBounds, Registered;
      var oldSize := bb.Length;
      ghost var all, data := bb[..], bb[space..];
      assert data == all[space..];
      var grown, nbb := GrowByteBuffer(bb);
      if grown.Fail? {
        return grown;
      }
      assert nbb[oldSize..][space..] == nbb[oldSize + space..];
      bb := nbb;
      space := space + (bb.Length - oldSize);
      r := Pass;
    }

    /** The growth loop of prep: grows until `need` bytes are free in front. */
    method Reserve(need: nat) returns (r: Outcome)
      requires Valid()
      modifies this`bb, this`space
      ensures Valid() && (bb == old(bb) || fresh(bb)) && bb.Length >= old(bb.Length) && Written() == old(Written())
      ensures r.Pass? ==> space >= need
      ensures r.Fail? ==> r.panic == TooLarge && |Written().st.data| + need > 0x4000_0000
    {
      hide PowerOfTwo, VtableInBounds, Registered;
      while space < need
        invariant Valid() && (bb == old(bb) || fresh(bb)) && bb.Length >= old(bb.Length) && Written() == old(Written())
        decreases LIMIT - bb.Length
      {
        :- GrowOnce();
      }
      r := Pass;
    }

    method Prep(size: int, additional: nat) returns (r: Outcome)
      requires Valid() && PowerOfTwo(size)
      modifies this, bb
      ensures Valid() && (bb == old(bb) || fresh(bb)) && bb.Length >= old(bb.Length)
      ensures r.Pass? ==> Written() == P.Prep(old(Written()), size, additional) && space >= size + additional
      ensures unchanged(`vtable, `objectStart, `stray, `vtables, `numVtables, `nested, `vectorNumElems, `forceDefaults)
      ensures r.Fail? ==> r.panic == TooLarge && |Written().st.data| + 2 * size + additional > 0x4000_0000
    {
      hide VtableInBounds, Zeros, LE, And, Complement;
      if size > minalign {
        minalign := size;
      }
      var alignSize := And(Complement(bb.Length - space + additional) + 1, size - 1);
      AlignSizeAligns(|Written().st.data| + additional, size);
      :- Reserve(alignSize + size + additional);
      Pad(alignSize);
      r := Pass;
    }

    method Pad(n: nat)
      requires Valid() && n <= space
      modifies this`space, bb
      ensures Valid() && bb == old(bb) && space == old(space) - n
      ensures Written() == old(Written()).(st := Place(old(Written()).st, Zeros(n)))
    {
      hide VtableInBounds, PowerOfTwo, LE;
      ghost var data := bb[space..];
      assert bb[space..] == Zeros(0) + data;
      for i := 0 to n
        invariant Valid() && space == old(space) - i
        invariant bb[space..] == Zeros(i) + data
      {
        ghost var before := bb[space..];
        space := space - 1;
        bb[space] := 0;
        assert bb[space..] == [0] + before;
        assert [0] + Zeros(i) == Zeros(i + 1);
        Reassociate([0], Zeros(i), data);
        PrependedIsSuffix([0], before);
        RegisteredExtends(before, bb[space..], vtables[..numVtables]);
      }
    }

    /** putBool .. putDouble, for values that they accept. */
    method PutScalar(size: nat, x: int)
      requires Valid() && size <= space
      modifies this`space, bb
      ensures Valid() && bb == old(bb) && space == old(space) - size
      ensures Written() == old(Written()).(st := Place(old(Written()).st, LE(x, size)))
    {
      hide VtableInBounds, PowerOfTwo, LE;
      ghost var data := bb[space..];
      space := space - size;
      WriteLittleEndian(bb, space, size, x);
      assert bb[space..] == LE(x, size) + data;
      PrependedIsSuffix(LE(x, size), data);
      RegisteredExtends(data, bb[space..], vtables[..numVtables]);
    }

    /** addBool .. addDouble: the range check comes after the alignment. */
    method AddScalar(size: int, kind: Kind, x: int) returns (r: Outcome)
      requires Valid() && PowerOfTwo(size) && P.Determined(kind, size, x)
      modifies this, bb
      ensures Valid() && (bb == old(bb) || fresh(bb)) && bb.Length >= old(bb.Length)
      ensures r.Pass? ==> P.AddScalar(old(Written()), size, kind, x) == Some(Written())
      ensures unchanged(`vtable, `objectStart, `stray, `vtables, `numVtables, `nested, `vectorNumElems, `forceDefaults)
      ensures r == Fail(Misuse) ==> P.AddScalar(old(Written()), size, kind, x) == None
      ensures r == Fail(TooLarge) ==> |Written().st.data| + 2 * size > 0x4000_0000
    {
      hide VtableInBounds, P.Accepted, P.Determined;
      :- Prep(size, 0);
      if !P.Accepted(kind, size, x) {
        return Fail(Misuse);
      }
      PutScalar(size, x);
      r := Pass;
    }

    method AddByte(b: byte) returns (r: Outcome)
      requires Valid()
      modifies this, bb
      ensures Valid() && (bb == old(bb) || fresh(bb)) && bb.Length >= old(bb.Length)
      ensures r.Pass? ==> Written() == P.AddByte(old(Written()), b)
      ensures r.Fail? ==> r.panic == TooLarge && |Written().st.data| + 2 > 0x4000_0000
    {
      hide VtableInBounds, Zeros, LE, AlignSize;
      PowersUsed();
      :- Prep(1, 0);
      PutScalar(1, b);
      r := Pass;
    }

    /** putShort: the space is taken even if the value is refused. */
    method PutShort(x: int) returns (r: Outcome)
      requires Valid() && 2 <= space
      modifies this`space, bb
      ensures Valid() && bb == old(bb) && space == old(space) - 2
      ensures r == if P.IsShort(x) then Pass else Fail(Misuse)
      ensures r.Pass? ==> Written() == old(Written()).(st := Place(old(Written()).st, LE(x, 2)))
    {
      hide VtableInBounds, PowerOfTwo, LE;
      ghost var data := bb[space..];
      space := space - 2;
      r := PhpBuffer.PutShort(bb, space, x);
      ghost var front := bb[space..space + 2];
      assert bb[space..] == front + data;
      assert r.Pass? ==> front == LE(x, 2);
      PrependedIsSuffix(front, data);
      RegisteredExtends(data, bb[space..], vtables[..numVtables]);
    }

    /** addShort: the range check comes after the alignment. */
    method AddShort(x: int) returns (r: Outcome)
      requires Valid()
      modifies this, bb
      ensures Valid() && (bb == old(bb) || fresh(bb)) && bb.Length >= old(bb.Length)
      ensures r.Pass? ==> P.AddShort(old(Written()).st, x) == Some(Written().st)
      ensures r.Pass? ==> Written() == old(Written()).(st := Written().st)
      ensures unchanged(`vtable, `objectStart, `stray, `vtables, `numVtables, `nested, `vectorNumElems, `forceDefaults)
      ensures r == Fail(Misuse) ==> P.AddShort(old(Written()).st, x) == None
      ensures r == Fail(TooLarge) ==> |Written().st.data| + 4 > 0x4000_0000
    {
      hide VtableInBounds, LE, Zeros, AlignSize;
      PowersUsed();
      :- Prep(2, 0);
      r := PutShort(x);
    }

    method AddOffset(off: nat) returns (r: Outcome)
      requires Valid()
      modifies this, bb
      ensures Valid() && (bb == old(bb) || fresh(bb)) && bb.Length >= old(bb.Length)
      ensures r.Pass? ==> P.AddOffset(old(Written()), off) == Some(Written())
      ensures r == Fail(Misuse) ==> P.AddOffset(old(Written()), off) == None
      ensures r == Fail(TooLarge) ==> |Written().st.data| + 8 > 0x4000_0000
    {
      hide VtableInBounds, LE, Zeros, AlignSize;
      PowersUsed();
      :- Prep(4, 0);
      var offset := Offset();
      if off > offset {
        return Fail(Misuse);
      }
      var newOff := offset - off + 4;
      if !P.IsInt(newOff) {
        return Fail(Misuse);
      }
      PutScalar(4, newOff);
      r := Pass;
    }

    // ---- Objects --------------------------------------------------------------------

    method StartObject(numFields: nat) returns (r: Outcome)
      requires Valid()
      modifies this
      ensures Valid() && bb == old(bb) && space == old(space)
      ensures r.Pass? ==> P.StartObject(old(Written()), numFields) == Some(Written())
      ensures r.Fail? ==> r.panic == Misuse && P.StartObject(old(Written()), numFields) == None
    {
      if nested {
        return Fail(Misuse);
      }
      vtable := ZeroSlots(numFields);
      nested := true;
      objectStart := bb.Length - space;
      r := Pass;
    }

    method Slot(slot: nat)
      requires Valid()
      modifies this`vtable, this`stray
      ensures Valid() && Written() == P.Slot(old(Written()), slot)
    {
      if slot < |vtable| {
        vtable := vtable[slot := bb.Length - space];
      } else {
        stray := true;
      }
    }

    /** Whether slots that hold their default are written as well. */
    method ForceDefaults(force: bool)
      requires Valid()
      modifies this`forceDefaults
      ensures Valid() && Written() == old(Written()).(forceDefaults := force)
    {
      forceDefaults := force;
    }

    /** addBoolX .. addDoubleX. */
    method AddScalarX(slot: nat, size: int, kind: Kind, x: int, d: int) returns (r: Outcome)
      requires Valid() && PowerOfTwo(size)
      requires P.Determined(kind, size, x) || (!forceDefaults && P.IsDefault(kind, size, x, d))
      modifies this, bb
      ensures Valid() && (bb == old(bb) || fresh(bb)) && bb.Length >= old(bb.Length)
      ensures r.Pass? ==> P.AddScalarX(old(Written()), slot, size, kind, x, d) == Some(Written())
      ensures r == Fail(Misuse) ==> P.AddScalarX(old(Written()), slot, size, kind, x, d) == None
      ensures r == Fail(TooLarge) ==> |Written().st.data| + 2 * size > 0x4000_0000
    {
      hide P.IsDefault, P.Determined, P.AddScalar;
      if forceDefaults || !P.IsDefault(kind, size, x, d) {
        :- AddScalar(size, kind, x);
        Slot(slot);
      }
      r := Pass;
    }

    method AddOffsetX(slot: nat, x: nat, d: nat) returns (r: Outcome)
      requires Valid()
      modifies this, bb
      ensures Valid() && (bb == old(bb) || fresh(bb)) && bb.Length >= old(bb.Length)
      ensures r.Pass? ==> P.AddOffsetX(old(Written()), slot, x, d) == Some(Written())
      ensures r == Fail(Misuse) ==> P.AddOffsetX(old(Written()), slot, x, d) == None
      ensures r == Fail(TooLarge) ==> |Written().st.data| + 8 > 0x4000_0000
    {
      if forceDefaults || x != d {
        :- AddOffset(x);
        Slot(slot);
      }
      r := Pass;
    }

    method AddStructX(slot: nat, x: nat, d: nat) returns (r: Outcome)
      requires Valid()
      modifies this`vtable, this`stray
      ensures Valid()
      ensures r.Pass? ==> P.AddStructX(old(Written()), slot, x, d) == Some(Written())
      ensures r.Fail? ==> r.panic == Misuse && P.AddStructX(old(Written()), slot, x, d) == None
    {
      if x != d {
        if x != bb.Length - space {
          return Fail(Misuse);
        }
        Slot(slot);
      }
      r := Pass;
    }

    /** The number of slots without the trailing zeroes. */
    method TrimmedSize() returns (size: nat)
      requires Valid()
      ensures size <= |vtable| && vtable[..size] == Trim(vtable)
    {
      size := |vtable|;
      assert vtable[..size] == vtable;
      while size > 0 && vtable[size - 1] == 0
        invariant 0 <= size <= |vtable| && Trim(vtable[..size]) == Trim(vtable)
      {
        assert vtable[..size][..size - 1] == vtable[..size - 1];
        size := size - 1;
      }
    }

    /** Adds the entries that are left after trimming, last first. */
    method AddEntries(vtableLoc: nat) returns (r: Outcome, trimmedSize: nat)
      requires Valid()
      modifies this, bb
      ensures Valid() && (bb == old(bb) || fresh(bb)) && bb.Length >= old(bb.Length)
      ensures trimmedSize == |Trim(old(vtable))|
      ensures r.Pass? ==> P.AddEntries(old(Written()).st, Trim(old(vtable)), vtableLoc) == Some(Written().st)
      ensures r.Pass? ==> Written() == old(Written()).(st := Written().st)
      ensures unchanged(`vtable, `objectStart, `stray, `vtables, `numVtables, `nested, `vectorNumElems, `forceDefaults)
      ensures r == Fail(Misuse) ==> P.AddEntries(old(Written()).st, Trim(old(vtable)), vtableLoc) == None
      ensures r == Fail(TooLarge) ==> |Written().st.data| + 4 > 0x4000_0000
    {
      hide VtableInBounds, PowerOfTwo, P.AddShort, Trim, Registered;
      ghost var s, vt := Written().st, Trim(vtable);
      trimmedSize := TrimmedSize();
      var i := trimmedSize;
      assert vt[..i] == vt;
      while i > 0
        invariant 0 <= i <= trimmedSize && Valid() && (bb == old(bb) || fresh(bb)) && bb.Length >= old(bb.Length)
        invariant Written() == old(Written()).(st := Written().st)
        invariant unchanged(`vtable, `objectStart, `stray, `vtables, `numVtables, `nested, `vectorNumElems,
          `forceDefaults)
        invariant P.AddEntries(Written().st, vt[..i], vtableLoc) == P.AddEntries(s, vt, vtableLoc)
      {
        i := i - 1;
        assert vt[..i + 1][..i] == vt[..i] && vt[i] == vtable[i];
        var off := 0;
        if vtable[i] != 0 {
          off := vtableLoc - vtable[i];
        }
        :- AddShort(off);
      }
      r := Pass;
    }

    /** Entries, object size, own size. */
    method AddVtable(vtableLoc: nat) returns (r: Outcome)
      requires Valid()
      modifies this, bb
      ensures Valid() && (bb == old(bb) || fresh(bb)) && bb.Length >= old(bb.Length)
      ensures r.Pass?
        ==> P.AddVtable(old(Written()).st, Trim(old(vtable)), vtableLoc, old(objectStart)) == Some(Written().st)
      ensures r.Pass? ==> Written() == old(Written()).(st := Written().st)
      ensures unchanged(`vtable, `objectStart, `stray, `vtables, `numVtables, `nested, `vectorNumElems, `forceDefaults)
      ensures r == Fail(Misuse)
        ==> P.AddVtable(old(Written()).st, Trim(old(vtable)), vtableLoc, old(objectStart)) == None
      ensures r == Fail(TooLarge) ==> |Written().st.data| + 4 > 0x4000_0000
    {
      hide VtableInBounds, PowerOfTwo, P.AddShort, P.AddEntries, Trim;
      ghost var s := Written().st;
      PhpObjects.AddEntriesPrepends(s, Trim(vtable), vtableLoc);
      PrependEntriesGrows(s, Trim(vtable), vtableLoc);
      var trimmedSize :- AddEntries(vtableLoc);
      assert objectStart == s.objectEnd;
      :- AddShort(vtableLoc - objectStart);
      :- AddShort((trimmedSize + 2) * 2);
      r := Pass;
    }

    /** The inner loop of the search: the vtables at two positions, short by short. */
    static method EqualVtables(bb: array<byte>, vt1: nat, vt2: nat) returns (equal: bool)
      requires vt1 + 2 <= bb.Length && vt2 + 2 <= bb.Length
      requires vt1 + Get(bb[..], vt1, 2) <= bb.Length && vt2 + Get(bb[..], vt2, 2) <= bb.Length
      requires Get(bb[..], vt2, 2) < 0x8000 && Get(bb[..], vt2, 2) % 2 == 0
      ensures equal == (Get(bb[..], vt1, 2) == Get(bb[..], vt2, 2)
        && P.SameShorts(bb[..], vt1, vt2, Get(bb[..], vt1, 2)))
    {
      hide Get;
      var same := EqualShorts(bb, vt1, vt2);
      if !same {
        return false;
      }
      var len := GetShort(bb, vt1);
      SmallIsUnsigned(Get(bb[..], vt1, 2));
      var j := 2;
      while j < len.value
        invariant j % 2 == 0 && j >= 2
        invariant forall k :: 1 <= k < j / 2 ==> P.ShortsEqual(bb[..], vt1, vt2, k)
      {
        assert 2 * (j / 2) == j;
        same := EqualShorts(bb, vt1 + j, vt2 + j);
        if !same {
          assert !P.ShortsEqual(bb[..], vt1, vt2, j / 2);
          return false;
        }
        j := j + 2;
      }
      return true;
    }

    /** Compares two shorts as getShort returns them, that is, signed. */
    static method EqualShorts(bb: array<byte>, a: nat, b: nat) returns (equal: bool)
      requires a + 2 <= bb.Length && b + 2 <= bb.Length
      ensures equal == (Get(bb[..], a, 2) == Get(bb[..], b, 2))
    {
      var x := GetShort(bb, a);
      var y := GetShort(bb, b);
      Widths();
      SignedIsInjective(Get(bb[..], a, 2), Get(bb[..], b, 2));
      equal := x == y;
    }

    /** The search: the first registered vtable with the bytes of the one at the front. */
    method FindExisting() returns (existing: nat)
      requires Valid() && FrontIsShort(Written().st.data)
      ensures existing == P.SearchFrom(Written().st.data, Written().st.vtables, 0)
    {
      hide PowerOfTwo, P.SameShorts, Get;
      ghost var data, registered := Written().st.data, Written().st.vtables;
      for i := 0 to numVtables
        invariant P.SearchFrom(data, registered, i) == P.SearchFrom(data, registered, 0)
      {
        ghost var v := registered[i];
        assert v in registered && VtableInBounds(data, v);
        var vt1 := bb.Length - vtables[i];
        var vt2 := space;
        SliceReads(bb[..], space, vt1);
        SliceReads(bb[..], space, vt2);
        var equal := EqualVtables(bb, vt1, vt2);
        if Get(data, |data| - v, 2) == Get(data, 0, 2) {
          SliceShorts(bb[..], space, vt1, Get(data, 0, 2));
        }
        if equal {
          return vtables[i];
        }
      }
      existing := 0;
    }

    /** The match: drops the vtable at the front, and points the object at the earlier one. */
    method RollBack(vtableLoc: nat, existing: nat) returns (r: Outcome)
      requires Valid() && 4 <= vtableLoc <= |Written().st.data|
      requires var s := P.RollBack(Written().st, vtableLoc, existing);
        s.Some? ==> Registered(s.value.data, s.value.vtables)
      modifies this`space, this`nested, this`vtable, bb
      ensures bb == old(bb)
      ensures r.Pass? ==> Valid() && P.RollBack(old(Written()).st, vtableLoc, existing) == Some(Written().st)
      ensures r.Fail? ==> r.panic == Misuse && P.RollBack(old(Written()).st, vtableLoc, existing) == None
    {
      hide VtableInBounds, PowerOfTwo, LE;
      ghost var data, all := bb[space..], bb[..];
      space := bb.Length - vtableLoc;
      assert all[space..] == data[|data| - vtableLoc..];
      :- PutInt(bb, space, existing - vtableLoc);
      PutBehind(all, space, space, LE(existing - vtableLoc, 4));
      nested := false;
      vtable := [];
      r := Pass;
    }

    /** Stores a vtable's location, in an array of twice the length if it is full; the first is simply added. */
    method RegisterVtable(offset: nat)
      requires numVtables <= |vtables|
      modifies this`vtables, this`numVtables
      ensures numVtables == old(numVtables) + 1 <= |vtables|
      ensures vtables[..numVtables] == old(vtables[..numVtables]) + [offset]
    {
      ghost var registered := vtables[..numVtables];
      if numVtables == |vtables| {
        var copied := vtables;
        vtables := [];
        for i := 0 to |copied| * 2
          invariant numVtables == old(numVtables) && |vtables| == i
          invariant forall k :: 0 <= k < i ==> vtables[k] == if k < |copied| then copied[k] else 0
        {
          vtables := vtables + [if i < |copied| then copied[i] else 0];
        }
        assert vtables[..numVtables] == registered;
      }
      vtables := if numVtables < |vtables| then vtables[numVtables := offset] else vtables + [offset];
      numVtables := numVtables + 1;
      assert vtables[..numVtables] == registered + [offset];
    }

    /** No match: registers the vtable at the front, and points the object at it. */
    method Keep(vtableLoc: nat) returns (r: Outcome)
      requires Valid() && 4 <= vtableLoc <= |Written().st.data|
      requires var s := P.Keep(Written().st, vtableLoc); s.Some? ==> Registered(s.value.data, s.value.vtables)
      modifies this`vtables, this`numVtables, this`nested, this`vtable, bb
      ensures bb == old(bb)
      ensures r.Pass? ==> Valid() && P.Keep(old(Written()).st, vtableLoc) == Some(Written().st)
      ensures r.Fail? ==> r.panic == Misuse && P.Keep(old(Written()).st, vtableLoc) == None
    {
      hide VtableInBounds, PowerOfTwo, LE, Registered, Put;
      ghost var s, all := Written().st, bb[..];
      var offset := bb.Length - space;
      RegisterVtable(offset);
      :- PutInt(bb, bb.Length - vtableLoc, offset - vtableLoc);
      PutBehind(all, space, bb.Length - vtableLoc, LE(offset - vtableLoc, 4));
      assert bb[space..] == Patch(s.data, vtableLoc, |s.data|);
      nested := false;
      vtable := [];
      r := Pass;
    }

    /** The object's placeholder, and its vtable in front. */
    method TryVtable() returns (r: Outcome, vtableLoc: nat)
      requires Valid()
      modifies this, bb
      ensures Valid() && (bb == old(bb) || fresh(bb)) && bb.Length >= old(bb.Length)
      ensures r.Pass? ==> vtableLoc == ObjectOffset(old(Written()).st)
      ensures var s := old(Written()).st; |PrependScalar(s, 4, 0).data| == ObjectOffset(s)
      ensures var s := old(Written()).st;
        r.Pass?
        ==> P.AddVtable(PrependScalar(s, 4, 0), Trim(s.vtable), ObjectOffset(s), s.objectEnd) == Some(Written().st)
      ensures r.Pass? ==> Written() == old(Written()).(st := Written().st)
      ensures unchanged(`vtable, `objectStart, `stray, `vtables, `numVtables, `nested, `vectorNumElems, `forceDefaults)
      ensures var s := old(Written()).st;
        r == Fail(Misuse) ==> P.AddVtable(PrependScalar(s, 4, 0), Trim(s.vtable), ObjectOffset(s), s.objectEnd) == None
      ensures r == Fail(TooLarge) ==> |Written().st.data| + 8 > 0x4000_0000
    {
      hide VtableInBounds, PowerOfTwo, LE, Registered, P.AddVtable, Trim, PrependScalar;
      PowersUsed();
      Widths();
      PhpObjects.BeginsAt(Written().st);
      vtableLoc := 0;
      assert P.AddScalar(Written(), 4, Signed, 0).Some?;
      :- AddScalar(4, Signed, 0);
      vtableLoc := bb.Length - space;
      :- AddVtable(vtableLoc);
      r := Pass;
    }

    /** Takes the vtable back, or keeps it. */
    method SettleVtable(ghost s: State, vtableLoc: nat) returns (r: Outcome)
      requires Valid() && 4 <= vtableLoc <= |Written().st.data| && vtableLoc == ObjectOffset(s)
      requires Written().st == PhpObjects.Trial(s) && FrontIsShort(Written().st.data)
      requires Registered(s.data, s.vtables) && P.IsShort((|Trim(s.vtable)| + 2) * 2)
      modifies this, bb
      ensures bb == old(bb) && unchanged(`stray, `vectorNumElems, `forceDefaults)
      ensures r.Pass? ==> Valid() && P.Settle(old(Written()).st, vtableLoc) == Some(Written().st)
      ensures r.Fail? ==> r.panic == Misuse && P.Settle(old(Written()).st, vtableLoc) == None
    {
      hide VtableInBounds, PowerOfTwo, LE, Registered, P.RollBack, P.Keep, Trim, P.SearchFrom, PhpObjects.Trial,
        FrontIsShort;
      var existing := FindExisting();
      SettleRegisters(s, existing);
      if existing != 0 {
        :- RollBack(vtableLoc, existing);
      } else {
        :- Keep(vtableLoc);
      }
      r := Pass;
    }

    method EndObject() returns (r: Outcome, n: nat)
      requires Valid()
      modifies this, bb
      ensures (bb == old(bb) || fresh(bb)) && bb.Length >= old(bb.Length)
      ensures r.Pass?
        ==> Valid() && P.EndObject(old(Written())) == Some(Written()) && n == ObjectOffset(old(Written()).st)
      ensures r == Fail(Misuse) ==> P.EndObject(old(Written())) == None
      ensures r == Fail(TooLarge) ==> Valid() && |Written().st.data| + 8 > 0x4000_0000
    {
      hide VtableInBounds, PowerOfTwo, LE, Registered, P.AddVtable, P.Settle, Trim, PrependScalar, PhpObjects.Trial,
        FrontIsShort;
      n := 0;
      if (vtable == [] && !stray) || !nested {
        return Fail(Misuse), 0;
      }
      ghost var s := Written().st;
      assert Registered(s.data, s.vtables);
      var vtableLoc :- TryVtable();
      TrialRegisters(s, Written().st);
      :- SettleVtable(s, vtableLoc);
      stray := false;
      n := vtableLoc;
      r := Pass;
    }

    // ---- Vectors and strings -----------------------------------------------------------

    /** Reserves the elements and the length word. */
    method StartVector(elemSize: nat, numElems: nat, alignment: int) returns (r: Outcome)
      requires Valid() && PowerOfTwo(alignment)
      modifies this, bb
      ensures Valid() && (bb == old(bb) || fresh(bb)) && bb.Length >= old(bb.Length)
      ensures r.Pass? ==> P.StartVector(old(Written()), elemSize, numElems, alignment) == Some(Written())
      ensures r.Pass? ==> space >= elemSize * numElems + 4
      ensures r == Fail(Misuse) ==> P.StartVector(old(Written()), elemSize, numElems, alignment) == None
      ensures r == Fail(TooLarge) ==> |Written().st.data| + 2 * alignment + 8 + elemSize * numElems > 0x4000_0000
    {
      hide VtableInBounds, LE, Zeros, AlignSize, Registered;
      if nested {
        return Fail(Misuse);
      }
      PowersUsed();
      vectorNumElems := numElems;
      var bytes := elemSize * numElems;
      ghost var s := Written().st;
      :- Prep(4, bytes);
      ghost var space1, s1 := space, Written().st;
      SecondPrep(s, bytes, alignment);
      :- Prep(alignment, bytes);
      assert alignment <= 4 ==> |Written().st.data| == |s1.data| && space >= space1;
      r := Pass;
    }

    /** Needs the room that startVector reserved. */
    method EndVector() returns (r: Outcome, n: nat)
      requires Valid() && 4 <= space
      modifies this`space, bb
      ensures bb == old(bb)
      ensures r.Pass? ==> Valid() && P.EndVector(old(Written())) == Some(Written()) && n == |Written().st.data|
      ensures r.Fail? ==> r.panic == Misuse && P.EndVector(old(Written())) == None
    {
      hide VtableInBounds, PowerOfTwo, LE, Registered;
      n := 0;
      ghost var data := bb[space..];
      assert Registered(data, vtables[..numVtables]);
      space := space - 4;
      :- PutUint(bb, space, vectorNumElems);
      assert bb[space..] == LE(vectorNumElems, 4) + data;
      PrependedIsSuffix(LE(vectorNumElems, 4), data);
      RegisteredExtends(data, bb[space..], vtables[..numVtables]);
      n := bb.Length - space;
      r := Pass;
    }

    /** The check of the encoding comes first. */
    method CreateString(s: seq<byte>) returns (r: Outcome, n: nat)
      requires Valid()
      modifies this, bb
      ensures (bb == old(bb) || fresh(bb)) && bb.Length >= old(bb.Length)
      ensures r.Pass? ==> Valid() && P.CreateString(old(Written()), s) == Some(Written()) && n == |Written().st.data|
      ensures r == Fail(Misuse) ==> P.CreateString(old(Written()), s) == None
      ensures r == Fail(TooLarge) ==> Valid() && |Written().st.data| + 10 + |s| > 0x4000_0000
    {
      hide VtableInBounds, LE, Zeros, AlignSize, Registered, P.StartVector, P.AddByte, P.EndVector, P.IsUtf8;
      n := 0;
      if !P.IsUtf8(s) || nested {
        return Fail(Misuse), 0;
      }
      PowersUsed();
      :- AddByte(0);
      :- StartVector(1, |s|, 1);
      CopyString(s);
      r, n := EndVector();
    }

    /** The copy of a string to the front. */
    method CopyString(s: seq<byte>)
      requires Valid() && |s| <= space
      modifies this`space, bb
      ensures Valid() && bb == old(bb) && space == old(space) - |s|
      ensures Written() == old(Written()).(st := Place(old(Written()).st, s))
    {
      hide VtableInBounds, PowerOfTwo, Registered;
      ghost var data := bb[space..];
      assert Registered(data, vtables[..numVtables]);
      space := space - |s|;
      var i := space;
      for j := 0 to |s|
        invariant i == space + j && space == old(space) - |s|
        invariant forall k :: 0 <= k < j ==> bb[space + k] == s[k]
        invariant bb[space + |s|..] == data
      {
        bb[i] := s[j];
        i := i + 1;
      }
      assert bb[space..] == s + data;
      PrependedIsSuffix(s, data);
      RegisteredExtends(data, bb[space..], vtables[..numVtables]);
    }

    // ---- Finishing -----------------------------------------------------------------------

    method FinishPlain(rootTable: nat) returns (r: Outcome)
      requires Valid()
      modifies this, bb
      ensures Valid() && (bb == old(bb) || fresh(bb)) && bb.Length >= old(bb.Length)
      ensures r.Pass? ==> P.FinishPlain(old(Written()), rootTable) == Some(Written())
      ensures r == Fail(Misuse) ==> P.FinishPlain(old(Written()), rootTable) == None
      ensures r == Fail(TooLarge) ==> |Written().st.data| + 2 * old(minalign) + 8 > 0x4000_0000
    {
      hide VtableInBounds, LE, Zeros, AlignSize, Registered, P.AddOffset;
      :- Prep(minalign, 4);
      :- AddOffset(rootTable);
      r := Pass;
    }

    /** finish: an empty identifier is no identifier. */
    method Finish(rootTable: nat, identifier: Option<seq<byte>>) returns (r: Outcome)
      requires Valid()
      modifies this, bb
      ensures Valid() && (bb == old(bb) || fresh(bb)) && bb.Length >= old(bb.Length)
      ensures r.Pass? ==> P.Finish(old(Written()), rootTable, identifier) == Some(Written())
      ensures r == Fail(Misuse) ==> P.Finish(old(Written()), rootTable, identifier) == None
      ensures r == Fail(TooLarge) ==> |Written().st.data| + 2 * old(minalign) + 12 > 0x4000_0000
    {
      hide VtableInBounds, LE, Zeros, AlignSize, Registered, P.FinishPlain, P.AddBytes;
      if identifier == None || identifier == Some([]) {
        :- FinishPlain(rootTable);
      } else {
        :- Prep(minalign, 8);
        if |identifier.value| != 4 {
          return Fail(Misuse);
        }
        ghost var p := Written();
        :- AddBytes(identifier.value);
        AddBytesKeeps(p, identifier.value);
        :- FinishPlain(rootTable);
      }
      r := Pass;
    }

    /** The loop that adds the file identifier, last byte first. */
    method AddBytes(bytes: seq<byte>) returns (r: Outcome)
      requires Valid()
      modifies this, bb
      ensures Valid() && (bb == old(bb) || fresh(bb)) && bb.Length >= old(bb.Length)
      ensures r.Pass? ==> Written() == P.AddBytes(old(Written()), bytes)
      ensures r.Fail? ==> r.panic == TooLarge && |Written().st.data| + 2 > 0x4000_0000
    {
      hide VtableInBounds, LE, Zeros, AlignSize, Registered, P.AddByte;
      PowersUsed();
      ghost var p := Written();
      var i := |bytes|;
      assert bytes[..i] == bytes;
      while i > 0
        invariant 0 <= i <= |bytes| && Valid() && (bb == old(bb) || fresh(bb)) && bb.Length >= old(bb.Length)
        invariant P.AddBytes(Written(), bytes[..i]) == P.AddBytes(p, bytes)
      {
        i := i - 1;
        assert bytes[..i + 1][..i] == bytes[..i];
        :- AddByte(bytes[i]);
      }
      r := Pass;
    }
  }
}
