/** What a caller relies on: whatever a run wrote, the reader gets back from the final buffer. */
module WholeRuns {
  import opened Bits
  import opened Codec
  import opened Wrappers
  import opened Layout
  import opened Prepends
  import opened Runs
  import opened Stability
  import opened Invariants
  import opened Sharing
  import opened PreserveVectors
  import opened Reachable
  import opened RoundTrip
  import F = Floats
  import G = GoTable

  // ---- Slots ------------------------------------------------------------------

  /** The last value that `ops` writes to `slot` of the object it leaves open, and that does not equal the default. */
  function LastWrite(ops: seq<Op>, slot: nat): Field
    decreases |ops|
  {
    if ops == [] then Absent
    else
      var before := ops[..|ops| - 1];
      match ops[|ops| - 1]
      case StartObjectOp(_) => Absent
      case ScalarSlotOp(i, size, kind, x, d) =>
        if i == slot && !F.Equals(kind, size, x, d) then Value(x, size) else LastWrite(before, slot)
      case UOffsetSlotOp(i, x, d) => if i == slot && x != d then Reference(x) else LastWrite(before, slot)
      case StructSlotOp(i, x, d) =>
        if i == slot && x != d then (if x == 0 then Absent else Struct(x)) else LastWrite(before, slot)
      case _ => LastWrite(before, slot)
  }

  function FieldIn(fields: seq<Field>, i: nat): Field {
    if i < |fields| then fields[i] else Absent
  }

  lemma OpenFieldsStep(r: Run, op: Op, slot: nat)
    requires r.log.open.InObject? ==> |r.log.open.fields| == |r.st.vtable|
    requires Step(r, op).Some? && Step(r, op).value.log.open.InObject?
    ensures var r1 := Step(r, op).value;
      FieldIn(r1.log.open.fields, slot) ==
        match op
        case StartObjectOp(_) => Absent
        case ScalarSlotOp(i, size, kind, x, d) =>
          if i == slot && !SameValue(kind, size, x, d) then Value(x, size) else FieldIn(r.log.open.fields, slot)
        case UOffsetSlotOp(i, x, d) => if i == slot && x != d then Reference(x) else FieldIn(r.log.open.fields, slot)
        case StructSlotOp(i, x, d) =>
          if i == slot && x != d then (if x == 0 then Absent else Struct(x)) else FieldIn(r.log.open.fields, slot)
        case _ => FieldIn(r.log.open.fields, slot)
    ensures !op.StartObjectOp? ==> r.log.open.InObject?
  {
    hide WriteVtable, PrependUOffsets, LE, Zeros, AlignSize, VtableWords, ListWords, FinishPlain, RoomAfter, SameValue,
      InType, PowerOfTwo, Finish, CreateString, CreateByteVector, CreateVectorOfTables, FinishWords;
  }

  /** The log's open fields are the last non-default writes. */
  lemma {:induction false} OpenFieldsAreLastWrites(ops: seq<Op>, slot: nat)
    requires RunAll(ops).Some? && RunAll(ops).value.log.open.InObject?
    ensures FieldIn(RunAll(ops).value.log.open.fields, slot) == LastWrite(ops, slot)
    decreases |ops|
  {
    var before, op := ops[..|ops| - 1], ops[|ops| - 1];
    var r := RunAll(before).value;
    ReachableIsGood(before);
    assert OpenOk(r.st, r.log);
    OpenFieldsStep(r, op, slot);
    if op.ScalarSlotOp? {
      F.SameIsEqual(op.kind, op.size, op.x, op.d);
    }
    if !op.StartObjectOp? {
      OpenFieldsAreLastWrites(before, slot);
    }
  }

  lemma TableIsIn(r: Run, o: nat)
    requires Good(r) && |r.st.data| < 0x8000_0000 && o in r.log.tables
    ensures TableIn(r.st.data, r.st.minalign, r.log, o)
  {
  }

  /** What EndObject returns, and what is logged for it. */
  lemma EndObjectLogs(r1: Run, r2: Run)
    requires Step(r1, EndObjectOp) == Some(r2)
    ensures r1.log.open.InObject? && ObjectOffset(r1.st) in r2.log.tables
    ensures r2.log.tables[ObjectOffset(r1.st)] == Table(VtableOf(r1.st), r1.st.vtable, r1.log.open.fields)
  {
    hide WriteVtable, VtableOf, SharedVtable, ObjectOffset, Trim, VtableWords, Entries;
  }

  /** A table that was ended earlier in the run. */
  lemma EarlierTableReads(ops: seq<Op>, r2: Run, o: nat, after: seq<Op>, r3: Run, i: nat, f: Field)
    requires RunAll(ops) == Some(r2) && RunFrom(r2, after) == Some(r3) && |r3.st.data| < 0x8000_0000
    requires o in r2.log.tables && FieldOf(r2.log.tables[o], i) == f
    ensures o <= |r3.st.data| && SlotReads(r3.st.data, |r3.st.data| - o, 4 + 2 * i, f)
  {
    hide Good, Step, RunAll, RunFrom, SlotReads, TableIn, Extends;
    ReachableIsGood(ops);
    HandlesAreStable(r2, after);
    TableIsIn(r3, o);
    SlotsRead(r3.st.data, r3.st.minalign, r3.log, o, i);
  }

  lemma RunExtends(ops: seq<Op>, r1: Run, op: Op)
    requires RunAll(ops) == Some(r1)
    ensures RunAll(ops + [op]) == Step(r1, op)
  {
    assert (ops + [op])[..|ops|] == ops;
  }

  lemma EndedFields(before: seq<Op>, r1: Run, r2: Run, i: nat)
    requires RunAll(before) == Some(r1) && Step(r1, EndObjectOp) == Some(r2)
    ensures ObjectOffset(r1.st) in r2.log.tables
    ensures FieldOf(r2.log.tables[ObjectOffset(r1.st)], i) == LastWrite(before, i)
  {
    EndObjectLogs(r1, r2);
    OpenFieldsAreLastWrites(before, i);
  }

  /**
   The whole-run round trip. After any calls `before`, end the object and go on with any calls
   `after`: every slot of the object, written or not, reads as the last non-default value
   written to it. This holds whether its vtable is new, trimmed or shared.
   */
  lemma TableRoundTrip(before: seq<Op>, r1: Run, r2: Run, after: seq<Op>, r3: Run, i: nat)
    requires RunAll(before) == Some(r1) && Step(r1, EndObjectOp) == Some(r2) && RunFrom(r2, after) == Some(r3)
    requires |r3.st.data| < 0x8000_0000
    ensures ObjectOffset(r1.st) <= |r3.st.data|
    ensures SlotReads(r3.st.data, |r3.st.data| - ObjectOffset(r1.st), 4 + 2 * i, LastWrite(before, i))
  {
    hide *;
    EndedFields(before, r1, r2, i);
    RunExtends(before, r1, EndObjectOp);
    EarlierTableReads(before + [EndObjectOp], r2, ObjectOffset(r1.st), after, r3, i, LastWrite(before, i));
  }

  // ---- Strings -----------------------------------------------------------------

  lemma BlobIsIn(r: Run, p: nat, h: nat)
    requires Good(r) && |r.st.data| < 0x8000_0000 && At(p, Ref(h)) in r.log.words && h in r.log.blobs
    ensures h in r.log.vectors && r.log.vectors[h].count <= |r.log.blobs[h]| && 4 <= p <= |r.st.data|
    ensures G.ByteVector(r.st.data, |r.st.data| - p) == Some(r.log.blobs[h][..r.log.vectors[h].count])
  {
    assert BlobOk(r.st.data, h, r.log.blobs[h]);
    assert VectorOk(r.log.words, h, r.log.vectors[h]);
    BlobReads(r.st.data, r.st.minalign, r.log.words, p, h, r.log.vectors[h], r.log.blobs[h]);
  }

  /** Bytes that were stored earlier in the run, read through an offset that was written since. */
  lemma EarlierBlobReads(r2: Run, h: nat, after: seq<Op>, r3: Run, p: nat)
    requires Good(r2) && h in r2.log.blobs && h in r2.log.vectors && RunFrom(r2, after) == Some(r3)
    requires r2.log.vectors[h].count <= |r2.log.blobs[h]|
    requires |r3.st.data| < 0x8000_0000 && At(p, Ref(h)) in r3.log.words
    ensures p <= |r3.st.data|
    ensures G.ByteVector(r3.st.data, |r3.st.data| - p) == Some(r2.log.blobs[h][..r2.log.vectors[h].count])
  {
    HandlesAreStable(r2, after);
    BlobIsIn(r3, p, h);
  }

  lemma StringLogs(r1: Run, op: Op, r2: Run)
    requires Step(r1, op) == Some(r2) && (op.StringOp? || op.ByteVectorOp?)
    ensures var bytes := if op.StringOp? then op.str else op.bytes;
      var h := |r2.st.data|;
      && h in r2.log.blobs && h in r2.log.vectors && r2.log.vectors[h].count == |bytes|
      && |bytes| <= |r2.log.blobs[h]| && r2.log.blobs[h][..|bytes|] == bytes
  {
  }

  /** Any later offset to a created string or byte vector reads as its bytes. */
  lemma BytesRoundTrip(r1: Run, op: Op, r2: Run, after: seq<Op>, r3: Run, p: nat)
    requires Good(r1) && (op.StringOp? || op.ByteVectorOp?)
    requires Step(r1, op) == Some(r2) && RunFrom(r2, after) == Some(r3)
    requires |r3.st.data| < 0x8000_0000 && At(p, Ref(|r2.st.data|)) in r3.log.words
    ensures p <= |r3.st.data|
    ensures G.ByteVector(r3.st.data, |r3.st.data| - p) == Some(if op.StringOp? then op.str else op.bytes)
  {
    StepKeepsGood(r1, op);
    StringLogs(r1, op, r2);
    EarlierBlobReads(r2, |r2.st.data|, after, r3, p);
  }

  lemma SharedIsBlob(r: Run, str: seq<byte>)
    requires Good(r) && str in r.st.shared
    ensures var h := r.st.shared[str];
      && h in r.log.blobs && h in r.log.vectors && r.log.vectors[h].count == |str|
      && |str| <= |r.log.blobs[h]| && r.log.blobs[h][..|str|] == str
  {
  }

  /** Interned strings: once in the table, a string keeps its handle, and the handle keeps reading as the string. */
  lemma SharedStringsAreStable(r1: Run, str: seq<byte>, after: seq<Op>, r3: Run, p: nat)
    requires Good(r1) && str in r1.st.shared && RunFrom(r1, after) == Some(r3)
    requires |r3.st.data| < 0x8000_0000 && At(p, Ref(r1.st.shared[str])) in r3.log.words
    ensures CreateSharedString(r3.st, str) == Some((r3.st, r1.st.shared[str]))
    ensures p <= |r3.st.data| && G.ByteVector(r3.st.data, |r3.st.data| - p) == Some(str)
  {
    HandlesAreStable(r1, after);
    SharedIsBlob(r1, str);
    EarlierBlobReads(r1, r1.st.shared[str], after, r3, p);
  }

  /** What CreateSharedString returns for a string, seen before or not. */
  function SharedOffset(s: State, str: seq<byte>): nat
    requires CreateSharedString(s, str).Some?
  {
    CreateSharedString(s, str).value.1
  }

  /** The offset that is returned is the one of the string; for a string that was there, nothing is written. */
  lemma SharedStepReturns(r1: Run, str: seq<byte>, r2: Run)
    requires Good(r1) && Step(r1, SharedStringOp(str)) == Some(r2)
    ensures CreateSharedString(r1.st, str).Some?
    ensures str in r2.st.shared && r2.st.shared[str] == SharedOffset(r1.st, str)
    ensures SharedOffset(r1.st, str) in r2.log.blobs && r2.log.blobs[SharedOffset(r1.st, str)] == str + [0]
    ensures str in r1.st.shared ==> r2.st == r1.st && SharedOffset(r1.st, str) == r1.st.shared[str]
  {
    hide Step, CreateString, WordsOk, VtablesOk, TablesOk, VectorsOk, BlobsOk, OpenOk, EndedBlob;
    SharedStepShape(r1, str, r2);
    StepKeepsGood(r1, SharedStringOp(str));
    assert SharedOk(r2.st, r2.log);
  }

  /** Every call of CreateSharedString: its offset leads to the string, and a zero byte stands behind it, for ever. */
  lemma SharedRoundTrip(r1: Run, str: seq<byte>, r2: Run, after: seq<Op>, r3: Run, p: nat)
    requires Good(r1) && Step(r1, SharedStringOp(str)) == Some(r2) && RunFrom(r2, after) == Some(r3)
    ensures CreateSharedString(r1.st, str).Some?
    ensures var at := |r3.st.data| - SharedOffset(r1.st, str) + 4;
      0 <= at && at + |str| + 1 <= |r3.st.data| && r3.st.data[at..at + |str|] == str && r3.st.data[at + |str|] == 0
    ensures |r3.st.data| < 0x8000_0000 && At(p, Ref(SharedOffset(r1.st, str))) in r3.log.words ==>
      p <= |r3.st.data| && G.ByteVector(r3.st.data, |r3.st.data| - p) == Some(str)
  {
    hide *;
    StepKeepsGood(r1, SharedStringOp(str));
    SharedStepReturns(r1, str, r2);
    HandlesAreStable(r2, after);
    LaterBlob(r2, r3, SharedOffset(r1.st, str));
    TerminatedBlob(r3.st.data, SharedOffset(r1.st, str), str);
    if |r3.st.data| < 0x8000_0000 && At(p, Ref(SharedOffset(r1.st, str))) in r3.log.words {
      SharedStringsAreStable(r2, str, after, r3, p);
    }
  }

  /** A string that has been interned gets the same offset again, and no byte is written. */
  lemma SharedAgain(r1: Run, str: seq<byte>, r2: Run, between: seq<Op>, r3: Run, r4: Run)
    requires Good(r1) && Step(r1, SharedStringOp(str)) == Some(r2) && RunFrom(r2, between) == Some(r3)
    requires Step(r3, SharedStringOp(str)) == Some(r4)
    ensures CreateSharedString(r1.st, str).Some? && CreateSharedString(r3.st, str).Some?
    ensures SharedOffset(r3.st, str) == SharedOffset(r1.st, str) && r4.st == r3.st
  {
    hide *;
    StepKeepsGood(r1, SharedStringOp(str));
    SharedStepReturns(r1, str, r2);
    HandlesAreStable(r2, between);
    LaterShared(r2, r3, str);
    SharedStepReturns(r3, str, r4);
  }

  lemma LaterShared(r: Run, r1: Run, str: seq<byte>)
    requires Later(r, r1) && str in r.st.shared
    ensures str in r1.st.shared && r1.st.shared[str] == r.st.shared[str]
  {
  }

  // ---- Alignment ------------------------------------------------------------------

  predicate IsMultiple(x: int, k: int) {
    k > 0 && x % k == 0
  }

  /** In a buffer whose length is a multiple of its alignment, every word is at a multiple of its width. */
  lemma WordsAreAligned(r: Run, p: Placed)
    requires Good(r) && p in r.log.words && |r.st.data| % r.st.minalign == 0
    ensures p.handle <= |r.st.data| && IsMultiple(|r.st.data| - p.handle, Width(p.word))
  {
    assert PlacedOk(r.st.data, r.st.minalign, p);
    var k: pos := Width(p.word);
    SmallerDivides(k, r.st.minalign, |r.st.data|);
    AddMultiples(p.handle, |r.st.data|, k);
  }

  // ---- Finish ---------------------------------------------------------------------

  /** The bytes that Finish puts in front: size prefix, root offset, file identifier, padding. */
  function Header(h: nat, root: nat, fid: Option<seq<byte>>, sizePrefix: bool): seq<byte> {
    (if sizePrefix then LE(h - 4, 4) else [])
    + LE((if sizePrefix then h - 4 else h) - root, 4)
    + (if fid.Some? then fid.value else [])
  }

  lemma FourDividesTail(m: pos, x: int, extra: int)
    requires PowerOfTwo(m) && m >= 4 && (x + extra) % m == 0 && (extra == 4 || extra == 8)
    ensures x % 4 == 0
  {
    PowersUsed();
    SmallerDivides(4, m, x + extra);
  }

  lemma AlignedRef(s: State, root: nat)
    requires |s.data| % 4 == 0 && PrependUOffset(s, root).Some?
    ensures PrependUOffset(s, root).value.data == LE(|s.data| + 4 - root, 4) + s.data
    ensures root <= |s.data|
  {
    PowersUsed();
    PrepAligns(s, 4, 0);
  }

  /** The two shapes of the header that FinishPlain writes in front of aligned data. */
  lemma HeaderShape(s0: State, root: nat)
    requires |s0.data| % 4 == 0 && PrependUOffset(s0, root).Some?
    ensures var s1 := PrependUOffset(s0, root).value;
      && |s1.data| == |s0.data| + 4
      && s1.data == Header(|s1.data|, root, None, false) + s0.data
      && LE(|s1.data|, 4) + s1.data == Header(|s1.data| + 4, root, None, true) + s0.data
  {
    AlignedRef(s0, root);
    var word := LE(|s0.data| + 4 - root, 4);
    Reassociate(LE(|s0.data| + 4, 4), word, s0.data);
    assert [] + word + [] == word;
    assert LE(|s0.data| + 4, 4) + word + [] == LE(|s0.data| + 4, 4) + word;
  }

  /** FinishPlain puts the header in front of data that it pads to a multiple of the alignment. */
  lemma FinishPlainLayout(s: State, root: nat, sizePrefix: bool)
    requires PowerOfTwo(s.minalign) && s.minalign >= 4 && FinishPlain(s, root, sizePrefix).Some?
    ensures var s0 := Prep(s, s.minalign, if sizePrefix then 8 else 4);
      var s1 := FinishPlain(s, root, sizePrefix).value;
      && |s1.data| == |s0.data| + (if sizePrefix then 8 else 4) && |s1.data| % s.minalign == 0
      && s1.minalign == s.minalign && root <= |s0.data|
      && s1.data == Header(|s1.data|, root, None, sizePrefix) + s0.data
  {
    var extra := if sizePrefix then 8 else 4;
    var s0 := Prep(s, s.minalign, extra);
    PrepAligns(s, s.minalign, extra);
    FourDividesTail(s.minalign, |s0.data|, extra);
    AlignedRef(s0, root);
    HeaderShape(s0, root);
  }

  /** Total length of the header. */
  function HeaderLength(fid: Option<seq<byte>>, sizePrefix: bool): nat {
    (if sizePrefix then 8 else 4) + (if fid.Some? then 4 else 0)
  }

  lemma FidIsInFront(s: State, root: nat, id: seq<byte>, sizePrefix: bool)
    requires PowerOfTwo(s.minalign) && s.minalign >= 4 && |id| == 4
    requires FinishPlain(s, root, sizePrefix).Some?
    requires (|s.data| + (if sizePrefix then 8 else 4)) % s.minalign == 0
    ensures FinishPlain(s, root, sizePrefix).value.data
      == Header(|FinishPlain(s, root, sizePrefix).value.data|, root, None, sizePrefix) + s.data
  {
    FinishPlainLayout(s, root, sizePrefix);
    PrepAligns(s, s.minalign, if sizePrefix then 8 else 4);
  }

  /**
   All four Finish variants: nothing but padding that was already there stands between the header
   and the old data, and nothing at all between size prefix, root offset and file identifier. The
   length is a multiple of the alignment.
   */
  lemma FinishLayout(s: State, root: nat, fid: Option<seq<byte>>, sizePrefix: bool)
    requires PowerOfTwo(s.minalign) && s.minalign >= 4 && Finish(s, root, fid, sizePrefix).Some?
    ensures var s0 := Prep(s, s.minalign, HeaderLength(fid, sizePrefix));
      var s1 := Finish(s, root, fid, sizePrefix).value;
      && (fid.Some? ==> |fid.value| == 4)
      && |s1.data| == |s0.data| + HeaderLength(fid, sizePrefix)
      && |s1.data| % s.minalign == 0 && s1.minalign == s.minalign
      && s1.data == Header(|s1.data|, root, fid, sizePrefix) + s0.data
      && root + (if sizePrefix then 8 else 4) <= |s1.data|
  {
    if fid.None? {
      FinishPlainLayout(s, root, sizePrefix);
    } else {
      var length := HeaderLength(fid, sizePrefix);
      var s0 := Prep(s, s.minalign, length);
      var sb := Place(s0, fid.value);
      PrepAligns(s, s.minalign, length);
      FinishPlainLayout(sb, root, sizePrefix);
      FidIsInFront(sb, root, fid.value, sizePrefix);
      HeaderWithFid(|Finish(s, root, fid, sizePrefix).value.data|, root, fid.value, sizePrefix, s0.data);
    }
  }

  lemma HeaderWithFid(h: nat, root: nat, id: seq<byte>, sizePrefix: bool, rest: seq<byte>)
    ensures Header(h, root, None, sizePrefix) + (id + rest) == Header(h, root, Some(id), sizePrefix) + rest
  {
    var front := (if sizePrefix then LE(h - 4, 4) else []) + LE((if sizePrefix then h - 4 else h) - root, 4);
    assert front + [] == front;
    Reassociate(front, id, rest);
  }

  /** The readers of go/lib.go on a finished buffer. */
  lemma FinishedReads(s: State, root: nat, fid: Option<seq<byte>>, sizePrefix: bool, data: seq<byte>)
    requires PowerOfTwo(s.minalign) && s.minalign >= 4 && Finish(s, root, fid, sizePrefix).Some?
    requires data == Finish(s, root, fid, sizePrefix).value.data && |data| < 0x8000_0000
    ensures !sizePrefix ==> G.GetRootAs(data, 0) == Some(|data| - root)
    ensures sizePrefix ==> G.GetSizePrefixedRootAs(data, 0) == Some(|data| - root)
    ensures sizePrefix ==> G.GetSizePrefix(data, 0) == Some(|data| - 4)
    ensures !sizePrefix && fid.Some? ==> G.GetBufferIdentifier(data) == fid
    ensures sizePrefix && fid.Some? ==> G.GetSizePrefixedBufferIdentifier(data) == fid
  {
    FinishLayout(s, root, fid, sizePrefix);
    var rest := Prep(s, s.minalign, HeaderLength(fid, sizePrefix)).data;
    HeaderReads(data, root, fid, sizePrefix, rest);
  }

  lemma HeaderReads(data: seq<byte>, root: nat, fid: Option<seq<byte>>, sizePrefix: bool, rest: seq<byte>)
    requires data == Header(|data|, root, fid, sizePrefix) + rest && |data| < 0x8000_0000
    requires fid.Some? ==> |fid.value| == 4
    requires root + (if sizePrefix then 8 else 4) <= |data|
    ensures !sizePrefix ==> G.GetRootAs(data, 0) == Some(|data| - root)
    ensures sizePrefix ==> G.GetSizePrefixedRootAs(data, 0) == Some(|data| - root)
    ensures sizePrefix ==> G.GetSizePrefix(data, 0) == Some(|data| - 4)
    ensures !sizePrefix && fid.Some? ==> G.GetBufferIdentifier(data) == fid
    ensures sizePrefix && fid.Some? ==> G.GetSizePrefixedBufferIdentifier(data) == fid
  {
    Widths();
    if sizePrefix {
      LoadAfterStoreUnsigned(|data| - 4, 4);
      LoadAfterStoreUnsigned(|data| - 4 - root, 4);
      assert data[0..4] == LE(|data| - 4, 4);
      assert data[4..8] == LE(|data| - 4 - root, 4);
    } else {
      LoadAfterStoreUnsigned(|data| - root, 4);
      assert data[0..4] == LE(|data| - root, 4);
    }
  }

  lemma FinishParts(r: Run, root: nat, fid: Option<seq<byte>>, sizePrefix: bool, r1: Run)
    requires Keyed(r) && Step(r, FinishOp(root, fid, sizePrefix)) == Some(r1)
    ensures PowerOfTwo(r.st.minalign) && r.st.minalign >= 4 && root in r.log.tables
    ensures Finish(r.st, root, fid, sizePrefix) == Some(r1.st)
  {
    hide Finish;
  }

  /** After Finish every word of the run is at an index of the buffer divisible by its width. */
  lemma FinishedIsAligned(r: Run, root: nat, fid: Option<seq<byte>>, sizePrefix: bool, r1: Run, p: Placed)
    requires Good(r) && Step(r, FinishOp(root, fid, sizePrefix)) == Some(r1) && p in r1.log.words
    ensures p.handle <= |r1.st.data| && IsMultiple(|r1.st.data| - p.handle, Width(p.word))
  {
    hide *;
    GoodIsKeyed(r);
    FinishParts(r, root, fid, sizePrefix, r1);
    StepKeepsGood(r, FinishOp(root, fid, sizePrefix));
    FinishLayout(r.st, root, fid, sizePrefix);
    WordsAreAligned(r1, p);
  }

  // ---- From the first byte of a finished buffer ----------------------------------------

  lemma RootIsFound(r: Run, root: nat, fid: Option<seq<byte>>, sizePrefix: bool, r1: Run)
    requires Good(r) && Step(r, FinishOp(root, fid, sizePrefix)) == Some(r1) && |r1.st.data| < 0x8000_0000
    ensures !sizePrefix ==> G.GetRootAs(r1.st.data, 0) == Some(|r1.st.data| - root)
    ensures sizePrefix ==> G.GetSizePrefixedRootAs(r1.st.data, 0) == Some(|r1.st.data| - root)
    ensures root <= |r1.st.data|
  {
    hide *;
    GoodIsKeyed(r);
    FinishParts(r, root, fid, sizePrefix, r1);
    FinishLayout(r.st, root, fid, sizePrefix);
    FinishedReads(r.st, root, fid, sizePrefix, r1.st.data);
  }

  // ---- Vectors of tables -----------------------------------------------------------------

  lemma ListLogs(r1: Run, offsets: seq<nat>, r2: Run)
    requires Step(r1, VectorOfTablesOp(offsets)) == Some(r2)
    ensures |r2.st.data| in r2.log.vectors && r2.log.vectors[|r2.st.data|] == Vector(4, |offsets|, Refs(offsets))
  {
    hide CreateVectorOfTables, ListWords;
  }

  lemma ListReads(data: seq<byte>, m: int, words: set<Placed>, h: nat, offsets: seq<nat>, p: nat, i: nat)
    requires WordsOk(data, m, words) && |data| < 0x8000_0000 && VectorOk(words, h, Vector(4, |offsets|, Refs(offsets)))
    requires At(p, Ref(h)) in words
    ensures p <= |data| && 4 <= h <= |data|
    ensures G.VectorLen(data, |data| - p, 0) == Some(|offsets|)
    ensures G.Vector(data, |data| - p, 0) == Some(|data| - h + 4)
    ensures i < |offsets| ==> G.Indirect(data, |data| - h + 4 + 4 * i) == Some(|data| - offsets[i])
  {
    hide WordsOk, VectorOk, ElementOk, G.Indirect, G.VectorLen, G.Vector;
    RefLoads(data, m, words, p, h);
    ListIsShort(data, m, words, h, offsets);
    VectorReads(data, m, words, |data| - p, 0, h, Vector(4, |offsets|, Refs(offsets)));
    if i < |offsets| {
      ListElement(words, h, offsets, i);
      RefLoads(data, m, words, h - 4 - 4 * i, offsets[i]);
    }
  }

  lemma ListElement(words: set<Placed>, h: nat, offsets: seq<nat>, i: nat)
    requires VectorOk(words, h, Vector(4, |offsets|, Refs(offsets))) && i < |offsets|
    ensures 4 * i + 4 <= h && At(h - 4 - 4 * i, Ref(offsets[i])) in words
  {
    assert ElementOk(words, h, Vector(4, |offsets|, Refs(offsets)), i);
  }

  lemma ListParts(r: Run, h: nat)
    requires Good(r) && h in r.log.vectors
    ensures WordsOk(r.st.data, r.st.minalign, r.log.words) && VectorOk(r.log.words, h, r.log.vectors[h])
  {
  }

  lemma ListIsShort(data: seq<byte>, m: int, words: set<Placed>, h: nat, offsets: seq<nat>)
    requires WordsOk(data, m, words) && VectorOk(words, h, Vector(4, |offsets|, Refs(offsets))) && |data| < 0x8000_0000
    ensures |offsets| < 0x1_0000_0000
  {
    assert PlacedOk(data, m, At(h, Scalar(|offsets|, 4)));
    if offsets != [] {
      assert ElementOk(words, h, Vector(4, |offsets|, Refs(offsets)), |offsets| - 1);
    }
  }

  /** CreateVectorOfTables, then Vector, VectorLen and Indirect: exactly the given tables, in order. */
  lemma ListRoundTrip(r1: Run, offsets: seq<nat>, r2: Run, after: seq<Op>, r3: Run, p: nat, i: nat)
    requires Good(r1) && Step(r1, VectorOfTablesOp(offsets)) == Some(r2) && RunFrom(r2, after) == Some(r3)
    requires |r3.st.data| < 0x8000_0000 && At(p, Ref(|r2.st.data|)) in r3.log.words
    ensures p <= |r3.st.data| && 4 <= |r2.st.data| <= |r3.st.data|
    ensures G.VectorLen(r3.st.data, |r3.st.data| - p, 0) == Some(|offsets|)
    ensures var start := |r3.st.data| - |r2.st.data| + 4;
      && G.Vector(r3.st.data, |r3.st.data| - p, 0) == Some(start)
      && (i < |offsets| ==> G.Indirect(r3.st.data, start + 4 * i) == Some(|r3.st.data| - offsets[i]))
  {
    hide *;
    StepKeepsGood(r1, VectorOfTablesOp(offsets));
    ListLogs(r1, offsets, r2);
    HandlesAreStable(r2, after);
    LaterVector(r2, r3, |r2.st.data|);
    ListParts(r3, |r2.st.data|);
    ListReads(r3.st.data, r3.st.minalign, r3.log.words, |r2.st.data|, offsets, p, i);
  }

  lemma LaterVector(r: Run, r1: Run, h: nat)
    requires Later(r, r1) && h in r.log.vectors
    ensures h in r1.log.vectors && r1.log.vectors[h] == r.log.vectors[h]
  {
  }

  // ---- Strings end in a zero byte -----------------------------------------------------------

  /** Behind its last byte every string has a zero, whatever is built later. */
  lemma StringsAreTerminated(r1: Run, str: seq<byte>, r2: Run, after: seq<Op>, r3: Run)
    requires Good(r1) && Step(r1, StringOp(str)) == Some(r2) && RunFrom(r2, after) == Some(r3)
    ensures var at := |r3.st.data| - |r2.st.data| + 4;
      0 <= at && at + |str| + 1 <= |r3.st.data| && r3.st.data[at..at + |str|] == str && r3.st.data[at + |str|] == 0
  {
    hide *;
    StepKeepsGood(r1, StringOp(str));
    StringBlob(r1, str, r2);
    HandlesAreStable(r2, after);
    LaterBlob(r2, r3, |r2.st.data|);
    TerminatedBlob(r3.st.data, |r2.st.data|, str);
  }

  lemma StringBlob(r1: Run, str: seq<byte>, r2: Run)
    requires Step(r1, StringOp(str)) == Some(r2)
    ensures |r2.st.data| in r2.log.blobs && r2.log.blobs[|r2.st.data|] == str + [0]
  {
    hide CreateString;
  }

  lemma LaterBlob(r: Run, r1: Run, h: nat)
    requires Good(r1) && Later(r, r1) && h in r.log.blobs
    ensures BlobOk(r1.st.data, h, r.log.blobs[h])
  {
  }

  lemma TerminatedBlob(data: seq<byte>, h: nat, str: seq<byte>)
    requires BlobOk(data, h, str + [0])
    ensures var at := |data| - h + 4;
      0 <= at && at + |str| + 1 <= |data| && data[at..at + |str|] == str && data[at + |str|] == 0
  {
    var at := |data| - h + 4;
    var body := data[at..at + |str| + 1];
    assert body == str + [0];
    assert data[at..at + |str|] == body[..|str|] && data[at + |str|] == body[|str|];
  }

  // ---- Vtable sharing ---------------------------------------------------------------------

  /**
   In every reachable state: the comparison accepts a registered vtable exactly when its entries
   are those of the open object, every registered entry is below the object's offset (so that an
   absent slot is never taken for an entry), and registered vtables with equal entries are one.
   */
  lemma SharingPreservesMeaning(ops: seq<Op>, r: Run, v: nat, w: nat)
    requires RunAll(ops) == Some(r) && r.log.open.InObject? && v in r.st.vtables && w in r.st.vtables
    ensures v in r.log.vtables && w in r.log.vtables
    ensures Accepts(BeginVtable(r.st).data, v, Trim(r.st.vtable), ObjectOffset(r.st)) <==>
      r.log.vtables[v].entries == Entries(Trim(r.st.vtable), ObjectOffset(r.st))
    ensures forall i :: 0 <= i < |r.log.vtables[v].entries| ==> r.log.vtables[v].entries[i] < ObjectOffset(r.st)
    ensures r.log.vtables[v].entries == r.log.vtables[w].entries ==> v == w
  {
    hide Good, WordsOk, PlacedOk, Accepts, ObjectOk, RunAll;
    ReachableIsGood(ops);
    GoodParts(r);
    AcceptsMeans(r.st, r.log, v);
    assert VtableOk(r.log.words, v, r.log.vtables[v]);
    OneVtable(r.st, r.log, v, w);
  }

  lemma GoodParts(r: Run)
    requires Good(r) && r.log.open.InObject?
    ensures WordsOk(r.st.data, r.st.minalign, r.log.words) && VtablesOk(r.st, r.log)
    ensures forall i :: 0 <= i < |r.st.vtable| ==> r.st.vtable[i] <= |r.st.data|
  {
    forall i | 0 <= i < |r.st.vtable|
      ensures r.st.vtable[i] <= |r.st.data|
    {
      assert r.st.vtable[i] == 0 || r.st.vtable[i] <= |r.st.data|;
    }
  }

  lemma OneVtable(s: State, log: Log, v: nat, w: nat)
    requires VtablesOk(s, log) && v in s.vtables && w in s.vtables
    ensures v in log.vtables && w in log.vtables && (log.vtables[v].entries == log.vtables[w].entries ==> v == w)
  {
    if log.vtables[v].entries == log.vtables[w].entries {
      var i :| 0 <= i < |s.vtables| && s.vtables[i] == v;
      var j :| 0 <= j < |s.vtables| && s.vtables[j] == w;
      assert i == j;
    }
  }
}
