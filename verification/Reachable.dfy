/** Every state that a well-bracketed run reaches is good. */
module Reachable {
  import opened Bits
  import opened Codec
  import opened Wrappers
  import opened Layout
  import opened Prepends
  import opened Runs
  import opened Stability
  import opened Invariants
  import opened Preservation
  import opened PreserveObjects
  import opened PreserveVectors

  /** A run step, spelled out. */
  lemma StepParts(r: Run, op: Op)
    requires Step(r, op).Some?
    ensures WellTyped(op) && Bracketed(r, op) && Apply(r.st, op).Some?
    ensures var s1 := Apply(r.st, op).value;
      Step(r, op) == Some(Run(s1, LogOp(r.log, r.st, s1, op).(room := RoomAfter(r.log.room, r.st, s1, op))))
      && Extends(r.st, s1)
  {
    ApplyExtends(r.st, op);
  }

  lemma ScalarKeepsGood(r: Run, size: pos, x: int, room: nat)
    requires Good(r) && IsSize(size)
    requires |PrependScalar(r.st, size, x).data| + room >= |r.st.data| + r.log.room
    ensures var s1 := PrependScalar(r.st, size, x);
      Good(Run(s1, Wrote(r.log, At(|s1.data|, Scalar(x, size))).(room := room)))
  {
    SizesArePowers(size);
    PrepWord(r.st, Scalar(x, size));
    WordKeepsGood(r, PrependScalar(r.st, size, x), Scalar(x, size), room);
  }

  lemma RefKeepsGood(r: Run, s1: State, off: nat, room: nat)
    requires Good(r) && PrependUOffset(r.st, off) == Some(s1)
    requires |s1.data| + room >= |r.st.data| + r.log.room
    ensures Good(Run(s1, Wrote(r.log, At(|s1.data|, Ref(off))).(room := room)))
  {
    UOffsetWord(r.st, off);
    WordKeepsGood(r, s1, Ref(off), room);
  }

  lemma ScalarSlotKeepsGood(r: Run, s1: State, slot: nat, size: pos, kind: Kind, x: int, d: int, room: nat)
    requires Good(r) && IsSize(size) && !SameValue(kind, size, x, d) && r.log.open.InObject?
    requires ScalarSlot(r.st, slot, size, kind, x, d) == Some(s1)
    requires |s1.data| + room >= |r.st.data| + r.log.room
    ensures Good(Run(s1, SetField(Wrote(r.log, At(|s1.data|, Scalar(x, size))), slot, Value(x, size)).(room := room)))
  {
    var sa := PrependScalar(r.st, size, x);
    var la := Wrote(r.log, At(|sa.data|, Scalar(x, size))).(room := room);
    ScalarKeepsGood(r, size, x, room);
    SlotKeepsGood(Run(sa, la), slot, Value(x, size));
  }

  lemma UOffsetSlotKeepsGood(r: Run, s1: State, slot: nat, x: nat, d: nat, room: nat)
    requires Good(r) && x != d && r.log.open.InObject?
    requires UOffsetSlot(r.st, slot, x, d) == Some(s1)
    requires |s1.data| + room >= |r.st.data| + r.log.room
    ensures Good(Run(s1, SetField(Wrote(r.log, At(|s1.data|, Ref(x))), slot, Reference(x)).(room := room)))
  {
    var sa := PrependUOffset(r.st, x).value;
    var la := Wrote(r.log, At(|sa.data|, Ref(x))).(room := room);
    RefKeepsGood(r, sa, x, room);
    SlotKeepsGood(Run(sa, la), slot, Reference(x));
  }

  lemma StructSlotKeepsGood(r: Run, s1: State, slot: nat, x: nat, d: nat)
    requires Good(r) && x != d && r.log.open.InObject? && StructSlot(r.st, slot, x, d) == Some(s1)
    ensures Good(Run(s1, SetField(r.log, slot, if x == 0 then Absent else Struct(x))))
  {
    SlotKeepsGood(r, slot, if x == 0 then Absent else Struct(x));
  }

  lemma StartObjectKeepsGood(r: Run, s1: State, n: nat, room: nat)
    requires Good(r) && n < 0x7ffe && StartObject(r.st, n) == Some(s1)
    ensures Good(Run(s1, r.log.(open := InObject(seq(n, i => Absent)), room := room)))
  {
    SettledKeeps(r.st, s1, r.log, r.log.(open := InObject(seq(n, i => Absent)), room := room));
  }

  lemma ExtendsIsLonger(s: State, s1: State)
    requires Extends(s, s1)
    ensures |s.data| <= |s1.data|
  {
  }

  lemma SlotStepKeepsGood(r: Run, op: Op)
    requires Good(r) && Step(r, op).Some? && (op.ScalarSlotOp? || op.UOffsetSlotOp? || op.StructSlotOp?)
    ensures Good(Step(r, op).value)
  {
    hide Good, Extends, RoomAfter, PrependScalar, PrependUOffset, SameValue, InType, Wrote, IsSize;
    StepParts(r, op);
    ExtendsIsLonger(r.st, Apply(r.st, op).value);
    var s, s1 := r.st, Apply(r.st, op).value;
    var room := RoomAfter(r.log.room, s, s1, op);
    RoomKeeps(r.log.room, s, s1, op);
    Reflexive(s);
    match op
    case ScalarSlotOp(slot, size, kind, x, d) =>
      if SameValue(kind, size, x, d) {
        PadKeepsGood(r, s1, room);
      } else {
        ScalarSlotKeepsGood(r, s1, slot, size, kind, x, d, room);
      }
    case UOffsetSlotOp(slot, x, d) =>
      if x == d { PadKeepsGood(r, s1, room); } else { UOffsetSlotKeepsGood(r, s1, slot, x, d, room); }
    case StructSlotOp(slot, x, d) =>
      PadKeepsGood(r, s, room);
      if x != d { StructSlotKeepsGood(Run(s, r.log.(room := room)), s1, slot, x, d); }
  }

  lemma WriteStepKeepsGood(r: Run, op: Op)
    requires Good(r) && Step(r, op).Some?
    requires op.StartObjectOp? || op.EndObjectOp? || op.PrependOp? || op.PrependUOffsetOp? || op.PrepOp? || op.PadOp?
    ensures Good(Step(r, op).value)
  {
    hide Good, Extends, RoomAfter, PrependScalar, PrependUOffset, Wrote, WriteVtable, ObjectOffset, EndedTable,
      ZeroSlots, InType, IsSize, PadFor, Zeros;
    StepParts(r, op);
    ExtendsIsLonger(r.st, Apply(r.st, op).value);
    var s, s1 := r.st, Apply(r.st, op).value;
    var room := RoomAfter(r.log.room, s, s1, op);
    RoomKeeps(r.log.room, s, s1, op);
    match op
    case StartObjectOp(n) => StartObjectKeepsGood(r, s1, n, room);
    case EndObjectOp => EndObjectKeepsGood(r, room);
    case PrependOp(size, _, x) => ScalarKeepsGood(r, size, x, room);
    case PrependUOffsetOp(off) => RefKeepsGood(r, s1, off, room);
    case PrepOp(align, additional) => PadKeepsGood(r, s1, room);
    case PadOp(n) => PadKeepsGood(r, s1, room);
  }

  lemma VectorStepKeepsGood(r: Run, op: Op)
    requires Good(r) && Step(r, op).Some?
    requires op.StartVectorOp? || op.EndVectorOp? || op.VectorOfTablesOp?
    ensures Good(Step(r, op).value)
  {
    hide Good, Extends, StartVector, CreateVectorOfTables, PowerOfTwo, EndedList;
    StepParts(r, op);
    ExtendsIsLonger(r.st, Apply(r.st, op).value);
    var s, s1 := r.st, Apply(r.st, op).value;
    var room := RoomAfter(r.log.room, s, s1, op);
    RoomKeeps(r.log.room, s, s1, op);
    match op
    case StartVectorOp(e, n, a) => StartVectorKeepsGood(r, e, n, a, room);
    case EndVectorOp(n) => EndVectorKeepsGood(r, n, room);
    case VectorOfTablesOp(offsets) => ListKeepsGood(r, offsets, room);
  }

  lemma BlobStepKeepsGood(r: Run, op: Op)
    requires Good(r) && Step(r, op).Some?
    requires op.StringOp? || op.SharedStringOp? || op.ByteVectorOp?
    ensures Good(Step(r, op).value)
  {
    hide Good, Extends, RoomAfter, CreateString, CreateByteVector, EndedBlob;
    StepParts(r, op);
    ExtendsIsLonger(r.st, Apply(r.st, op).value);
    var s, s1 := r.st, Apply(r.st, op).value;
    var room := RoomAfter(r.log.room, s, s1, op);
    RoomKeeps(r.log.room, s, s1, op);
    match op
    case StringOp(str) => StringKeepsGood(r, str, room);
    case SharedStringOp(str) =>
      if str in s.shared { PadKeepsGood(r, s1, room); } else { SharedStringKeepsGood(r, str, room); }
    case ByteVectorOp(v) => ByteVectorKeepsGood(r, v, room);
  }

  lemma FinishStepKeepsGood(r: Run, op: Op)
    requires Good(r) && Step(r, op).Some? && op.FinishOp?
    ensures Good(Step(r, op).value)
  {
    hide RoomAfter, Finish, Extends, PowerOfTwo, PlacedOk, WordsOk, OpenOk, VtablesOk, TablesOk, VectorsOk, BlobsOk,
      SharedOk;
    StepParts(r, op);
    var s1 := Apply(r.st, op).value;
    FinishState(r.st, op.root, op.fid, op.sizePrefix);
    FinishKeepsGood(r, s1, op.root, op.sizePrefix, RoomAfter(r.log.room, r.st, s1, op));
  }

  /** One well-bracketed call keeps the invariant. */
  lemma StepKeepsGood(r: Run, op: Op)
    requires Good(r) && Step(r, op).Some?
    ensures Good(Step(r, op).value)
  {
    hide Good, Step;
    match op
    case ScalarSlotOp(_, _, _, _, _) => SlotStepKeepsGood(r, op);
    case UOffsetSlotOp(_, _, _) => SlotStepKeepsGood(r, op);
    case StructSlotOp(_, _, _) => SlotStepKeepsGood(r, op);
    case StartVectorOp(_, _, _) => VectorStepKeepsGood(r, op);
    case EndVectorOp(_) => VectorStepKeepsGood(r, op);
    case VectorOfTablesOp(_) => VectorStepKeepsGood(r, op);
    case StringOp(_) => BlobStepKeepsGood(r, op);
    case SharedStringOp(_) => BlobStepKeepsGood(r, op);
    case ByteVectorOp(_) => BlobStepKeepsGood(r, op);
    case FinishOp(_, _, _) => FinishStepKeepsGood(r, op);
    case _ => WriteStepKeepsGood(r, op);
  }

  lemma {:induction false} RunFromKeepsGood(r: Run, ops: seq<Op>)
    requires Good(r) && RunFrom(r, ops).Some?
    ensures Good(RunFrom(r, ops).value)
    decreases |ops|
  {
    hide Good, Step;
    if ops != [] {
      RunFromKeepsGood(r, ops[..|ops| - 1]);
      StepKeepsGood(RunFrom(r, ops[..|ops| - 1]).value, ops[|ops| - 1]);
    }
  }

  /** Whole runs: every reachable state satisfies the invariant. */
  lemma ReachableIsGood(ops: seq<Op>)
    requires RunAll(ops).Some?
    ensures Good(RunAll(ops).value)
  {
    assert PowerOfTwo(1);
    RunFromKeepsGood(START, ops);
  }

  // ---- Handles keep their meaning ------------------------------------------------

  /** `r1` comes after `r`: its data, words and everything returned so far are still there. */
  ghost predicate Later(r: Run, r1: Run) {
    && Extends(r.st, r1.st) && r.log.words <= r1.log.words
    && (forall h | h in r.log.tables :: h in r1.log.tables && r1.log.tables[h] == r.log.tables[h])
    && (forall h | h in r.log.vectors :: h in r1.log.vectors && r1.log.vectors[h] == r.log.vectors[h])
    && (forall h | h in r.log.blobs :: h in r1.log.blobs && r1.log.blobs[h] == r.log.blobs[h])
    && (forall str | str in r.st.shared :: str in r1.st.shared && r1.st.shared[str] == r.st.shared[str])
  }

  /** Returned handles are within the data. */
  ghost predicate Keyed(r: Run) {
    && PowerOfTwo(r.st.minalign) && (r.log.tables != map[] ==> r.st.minalign >= 4)
    && (forall o | o in r.log.tables :: o <= |r.st.data|)
    && (forall o | o in r.log.vectors :: o <= |r.st.data|)
    && (forall o | o in r.log.blobs :: o <= |r.st.data|)
  }

  lemma GoodIsKeyed(r: Run)
    requires Good(r)
    ensures Keyed(r)
  {
  }

  /** A step that enters at most one object, at a handle in front of the old data. */
  lemma EntersNew(r: Run, r1: Run, h: nat)
    requires Keyed(r) && Extends(r.st, r1.st) && r.log.words <= r1.log.words && h > |r.st.data|
    requires forall o | o in r.log.tables && o != h :: o in r1.log.tables && r1.log.tables[o] == r.log.tables[o]
    requires forall o | o in r.log.vectors && o != h :: o in r1.log.vectors && r1.log.vectors[o] == r.log.vectors[o]
    requires forall o | o in r.log.blobs && o != h :: o in r1.log.blobs && r1.log.blobs[o] == r.log.blobs[o]
    requires forall str | str in r.st.shared :: str in r1.st.shared && r1.st.shared[str] == r.st.shared[str]
    ensures Later(r, r1)
  {
  }

  lemma BytesStepIsLater(r: Run, op: Op)
    requires Keyed(r) && Step(r, op).Some? && (op.StringOp? || op.ByteVectorOp?)
    ensures Later(r, Step(r, op).value)
  {
    hide LE, Zeros, AlignSize, Extends, RoomAfter, WriteVtable, PrependUOffsets, FinishPlain, Later, Keyed, PowerOfTwo;
    StepParts(r, op);
    var r1 := Step(r, op).value;
    if op.StringOp? {
      StringShape(r.st, op.str);
    }
    EntersNew(r, r1, |r1.st.data|);
  }

  /** The run after interning `str`, which CreateString put in front. */
  function SharedRun(r: Run, s1: State, str: seq<byte>, room: nat): Run {
    Run(s1.(shared := s1.shared[str := |s1.data|]), EndedBlob(r.log, |s1.data|, |str|, str + [0]).(room := room))
  }

  lemma NewSharedIsLater(r: Run, s1: State, str: seq<byte>, room: nat)
    requires Keyed(r) && CreateString(r.st, str) == Some(s1) && str !in r.st.shared
    ensures Later(r, SharedRun(r, s1, str, room))
  {
    hide LE, Zeros, AlignSize, CreateString;
    StringShape(r.st, str);
    StringExtends(r.st, str);
    EntersNew(r, SharedRun(r, s1, str, room), |s1.data|);
  }

  lemma SharedStepShape(r: Run, str: seq<byte>, r1: Run)
    requires Step(r, SharedStringOp(str)) == Some(r1)
    ensures str in r.st.shared ==> r1 == Run(r.st, r.log.(room := r1.log.room))
    ensures str !in r.st.shared
      ==> CreateString(r.st, str).Some? && r1 == SharedRun(r, CreateString(r.st, str).value, str, r1.log.room)
  {
    hide CreateString, RoomAfter;
  }

  lemma RoomIsLater(r: Run, room: nat)
    ensures Later(r, Run(r.st, r.log.(room := room)))
  {
  }

  lemma SharedStepIsLater(r: Run, str: seq<byte>)
    requires Keyed(r) && Step(r, SharedStringOp(str)).Some?
    ensures Later(r, Step(r, SharedStringOp(str)).value)
  {
    hide *;
    var r1 := Step(r, SharedStringOp(str)).value;
    SharedStepShape(r, str, r1);
    if str in r.st.shared {
      RoomIsLater(r, r1.log.room);
    } else {
      NewSharedIsLater(r, CreateString(r.st, str).value, str, r1.log.room);
    }
  }

  lemma EndObjectIsLater(r: Run, s1: State, room: nat)
    requires Keyed(r) && EndObject(r.st) == Some(s1)
    ensures Later(r, Run(s1, EndedTable(r.log, r.st).(room := room)))
  {
    EndObjectPrepends(r.st);
    EndObjectExtends(r.st);
    EntersNew(r, Run(s1, EndedTable(r.log, r.st).(room := room)), ObjectOffset(r.st));
  }

  lemma EndObjectStepIsLater(r: Run)
    requires Keyed(r) && Step(r, EndObjectOp).Some?
    ensures Later(r, Step(r, EndObjectOp).value)
  {
    hide WriteVtable, EndedTable, RoomAfter, Extends, Later, Keyed, ObjectOffset;
    StepParts(r, EndObjectOp);
    var s1 := Apply(r.st, EndObjectOp).value;
    EndObjectIsLater(r, s1, RoomAfter(r.log.room, r.st, s1, EndObjectOp));
  }

  /** A step that enters nothing but words. */
  lemma EntersNothing(r: Run, r1: Run)
    requires Extends(r.st, r1.st) && r.log.words <= r1.log.words && r1.st.shared == r.st.shared
    requires r1.log.tables == r.log.tables && r1.log.vectors == r.log.vectors && r1.log.blobs == r.log.blobs
    ensures Later(r, r1)
  {
  }

  lemma EndVectorIsLater(r: Run, n: nat)
    requires Keyed(r) && Step(r, EndVectorOp(n)).Some?
    ensures Later(r, Step(r, EndVectorOp(n)).value)
  {
    hide LE, Extends, RoomAfter, OpenVector, Later, Keyed, PowerOfTwo;
    StepParts(r, EndVectorOp(n));
    var r1 := Step(r, EndVectorOp(n)).value;
    EntersNew(r, r1, |r1.st.data|);
  }

  lemma ListParts(r: Run, offsets: seq<nat>)
    requires Step(r, VectorOfTablesOp(offsets)).Some?
    ensures CreateVectorOfTables(r.st, offsets).Some?
    ensures var r1 := Step(r, VectorOfTablesOp(offsets)).value;
      && r1.st == CreateVectorOfTables(r.st, offsets).value
      && r1.log == EndedList(r.log, |r1.st.data|, offsets).(room := r1.log.room)
  {
    hide CreateVectorOfTables, EndedList, RoomAfter;
  }

  lemma ListIsLater(r: Run, offsets: seq<nat>)
    requires Keyed(r) && Step(r, VectorOfTablesOp(offsets)).Some?
    ensures Later(r, Step(r, VectorOfTablesOp(offsets)).value)
  {
    hide Step, CreateVectorOfTables, Extends, Later, ListWords, Refs, PowerOfTwo;
    StepParts(r, VectorOfTablesOp(offsets));
    ListParts(r, offsets);
    ListState(r.st, offsets);
    var r1 := Step(r, VectorOfTablesOp(offsets)).value;
    EntersNew(r, r1, |r1.st.data|);
  }

  lemma FinishStepParts(r: Run, op: Op)
    requires op.FinishOp? && Step(r, op).Some?
    ensures Finish(r.st, op.root, op.fid, op.sizePrefix).Some?
    ensures var r1 := Step(r, op).value;
      && r1.st == Finish(r.st, op.root, op.fid, op.sizePrefix).value && r.log.words <= r1.log.words
      && r1.log.tables == r.log.tables && r1.log.vectors == r.log.vectors && r1.log.blobs == r.log.blobs
  {
    hide Finish, RoomAfter, FinishWords;
  }

  lemma FinishKeepsShared(s: State, root: nat, fid: Option<seq<byte>>, sizePrefix: bool)
    requires Finish(s, root, fid, sizePrefix).Some?
    ensures Finish(s, root, fid, sizePrefix).value.shared == s.shared
  {
    hide LE, Zeros, AlignSize;
  }

  lemma FinishIsLater(r: Run, op: Op)
    requires op.FinishOp? && Step(r, op).Some?
    ensures Later(r, Step(r, op).value)
  {
    hide Step, Finish, Extends, Later;
    StepParts(r, op);
    FinishStepParts(r, op);
    FinishKeepsShared(r.st, op.root, op.fid, op.sizePrefix);
    EntersNothing(r, Step(r, op).value);
  }

  /** An operation that ends no object, vector or string. */
  predicate Plain(op: Op) {
    && !op.StringOp? && !op.SharedStringOp? && !op.ByteVectorOp?
    && !op.EndObjectOp? && !op.EndVectorOp? && !op.VectorOfTablesOp? && !op.FinishOp?
  }

  lemma PlainKeepsShared(s: State, op: Op)
    requires Plain(op) && Apply(s, op).Some?
    ensures Apply(s, op).value.shared == s.shared
  {
    hide LE, Zeros, AlignSize, SameValue, ZeroSlots;
  }

  lemma PlainLogs(log: Log, s: State, s1: State, op: Op)
    requires Plain(op)
    ensures var log1 := LogOp(log, s, s1, op);
      log.words <= log1.words && log1.tables == log.tables && log1.vectors == log.vectors && log1.blobs == log.blobs
  {
    hide SameValue, Width, EndedTable, EndedList, EndedBlob, Ended, OpenVector, FinishWords;
  }

  lemma PlainStepIsLater(r: Run, op: Op)
    requires Step(r, op).Some? && Plain(op)
    ensures Later(r, Step(r, op).value)
  {
    hide Step, Apply, LogOp, Extends, RoomAfter, Later, Plain;
    StepParts(r, op);
    var s1 := Apply(r.st, op).value;
    PlainKeepsShared(r.st, op);
    PlainLogs(r.log, r.st, s1, op);
    EntersNothing(r, Step(r, op).value);
  }

  /** No operation changes what an earlier handle stands for. */
  lemma StepIsLater(r: Run, op: Op)
    requires Keyed(r) && Step(r, op).Some?
    ensures Later(r, Step(r, op).value)
  {
    hide Step, Later, Keyed;
    match op
    case StringOp(_) => BytesStepIsLater(r, op);
    case SharedStringOp(_) => SharedStepIsLater(r, op.shared);
    case ByteVectorOp(_) => BytesStepIsLater(r, op);
    case EndObjectOp => EndObjectStepIsLater(r);
    case EndVectorOp(n) => EndVectorIsLater(r, n);
    case VectorOfTablesOp(offsets) => ListIsLater(r, offsets);
    case FinishOp(_, _, _) => FinishIsLater(r, op);
    case _ => PlainStepIsLater(r, op);
  }

  lemma LaterReflexive(r: Run)
    ensures Later(r, r)
  {
  }

  lemma LaterTransitive(a: Run, b: Run, c: Run)
    requires Later(a, b) && Later(b, c)
    ensures Later(a, c)
  {
    ExtendsTransitive(a.st, b.st, c.st);
  }

  /** Handle stability over whole runs: bytes, tables, vectors and strings behind a returned handle never change. */
  lemma {:induction false} HandlesAreStable(r: Run, ops: seq<Op>)
    requires Good(r) && RunFrom(r, ops).Some?
    ensures Good(RunFrom(r, ops).value) && Later(r, RunFrom(r, ops).value)
    decreases |ops|
  {
    hide Good, Later, Step, Keyed;
    RunFromKeepsGood(r, ops);
    if ops != [] {
      var r1 := RunFrom(r, ops[..|ops| - 1]).value;
      RunFromKeepsGood(r, ops[..|ops| - 1]);
      HandlesAreStable(r, ops[..|ops| - 1]);
      GoodIsKeyed(r1);
      StepIsLater(r1, ops[|ops| - 1]);
      LaterTransitive(r, r1, RunFrom(r, ops).value);
    } else {
      LaterReflexive(r);
    }
  }
}
