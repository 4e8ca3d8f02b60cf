/**
 Whole runs of the class. For every well-bracketed sequence of calls, a builder of any initial size
 and any growth schedule ends with exactly the data of the run, or stops at the growth limit; no
 placement in between is out of range.
 */
module GoRun {
  import opened Bits
  import opened Codec
  import opened Wrappers
  import opened Layout
  import opened Prepends
  import opened Runs
  import opened Invariants
  import opened Reachable
  import opened Growth
  import opened GoBuilder

  /** The calls' own preconditions. */
  ghost predicate Callable(b: Builder, op: Op)
    reads b, b.buf
    requires b.Valid()
  {
    match op
    case StartObjectOp(n) => n < 0x7ffe
    case EndObjectOp => b.Endable()
    case PadOp(n) => n <= b.head
    case EndVectorOp(_) => 4 <= b.head
    case FinishOp(_, _, sizePrefix) => b.minalign >= 4
    case _ => true
  }

  /** Free bytes that a call leaves, over what it had. */
  predicate Roomy(s: State, s1: State, op: Op, head: nat) {
    match op
    case PadOp(_) => true
    case EndVectorOp(_) => true
    case PrepOp(align, additional) => head >= align + additional + 1
    case StartVectorOp(e, n, _) => head >= e * n + 5
    case _ => s1.data == s.data || head >= 1
  }

  /** An upper bound on what a call writes and reserves. */
  function Need(s: State, op: Op): nat {
    match op
    case ScalarSlotOp(_, size, _, _, _) => 2 * size
    case PrependOp(size, _, _) => 2 * size
    case UOffsetSlotOp(_, _, _) => 8
    case PrependUOffsetOp(_) => 8
    case EndObjectOp => 8
    case PrepOp(align, additional) => 2 * align + additional
    case StartVectorOp(e, n, alignment) => 2 * alignment + 8 + e * n
    case VectorOfTablesOp(offsets) => 16 + 4 * |offsets|
    case StringOp(str) => 9 + |str|
    case SharedStringOp(str) => 9 + |str|
    case ByteVectorOp(v) => 8 + |v|
    case FinishOp(_, _, _) => 2 * s.minalign + 12
    case _ => 0
  }

  lemma RoomyFits(room: nat, s: State, s1: State, op: Op, head: nat)
    requires Roomy(s, s1, op, head) && head + |s1.data| >= room + |s.data| && |s1.data| >= |s.data|
    ensures head >= RoomAfter(room, s, s1, op)
  {
  }

  method CallObject(b: Builder, op: Op) returns (r: Outcome)
    requires b.Valid() && WellTyped(op) && Callable(b, op)
    requires op.StartObjectOp? || op.ScalarSlotOp? || op.UOffsetSlotOp? || op.StructSlotOp? || op.EndObjectOp?
    modifies b, b.buf
    ensures b.Valid() && (b.buf == old(b.buf) || fresh(b.buf)) && b.len >= old(b.len)
    ensures r.Pass? ==> Apply(old(b.Written()), op) == Some(b.Written())
    ensures r.Pass? ==> Roomy(old(b.Written()), b.Written(), op, b.head)
    ensures r == Fail(Misuse) ==> Apply(old(b.Written()), op) == None
    ensures r == Fail(TooLarge) ==> |b.Written().data| + Need(old(b.Written()), op) > 0x4000_0000
  {
    PowersUsed();
    match op
    case StartObjectOp(n) => r := b.StartObject(n);
    case ScalarSlotOp(slot, size, kind, x, d) => r := b.PrependScalarSlot(slot, size, kind, x, d);
    case UOffsetSlotOp(slot, x, d) => r := b.PrependUOffsetSlot(slot, x, d);
    case StructSlotOp(slot, x, d) => r := b.PrependStructSlot(slot, x, d);
    case EndObjectOp => var n; r, n := b.EndObject();
  }

  method CallWrite(b: Builder, op: Op) returns (r: Outcome)
    requires b.Valid() && WellTyped(op) && Callable(b, op)
    requires op.PrependOp? || op.PrependUOffsetOp? || op.PrepOp? || op.PadOp? || op.FinishOp?
    modifies b, b.buf
    ensures b.Valid() && (b.buf == old(b.buf) || fresh(b.buf)) && b.len >= old(b.len)
    ensures r.Pass? ==> Apply(old(b.Written()), op) == Some(b.Written())
    ensures r.Pass? ==> Roomy(old(b.Written()), b.Written(), op, b.head)
    ensures r == Fail(Misuse) ==> Apply(old(b.Written()), op) == None
    ensures r == Fail(TooLarge) ==> |b.Written().data| + Need(old(b.Written()), op) > 0x4000_0000
  {
    PowersUsed();
    match op
    case PrependOp(size, _, x) => r := b.PrependScalar(size, x);
    case PrependUOffsetOp(off) => r := b.PrependUOffset(off);
    case PrepOp(align, additional) => r := b.Prep(align, additional);
    case PadOp(n) => b.Pad(n); r := Pass;
    case FinishOp(root, fid, sizePrefix) =>
      if fid.None? {
        r := b.FinishPlain(root, sizePrefix);
      } else {
        r := b.FinishWithFileIdentifier(root, fid.value, sizePrefix);
      }
  }

  method CallVector(b: Builder, op: Op) returns (r: Outcome)
    requires b.Valid() && WellTyped(op) && Callable(b, op)
    requires op.StartVectorOp? || op.EndVectorOp? || op.VectorOfTablesOp? || op.StringOp? || op.SharedStringOp?
      || op.ByteVectorOp?
    modifies b, b.buf
    ensures b.Valid() && (b.buf == old(b.buf) || fresh(b.buf)) && b.len >= old(b.len)
    ensures r.Pass? ==> Apply(old(b.Written()), op) == Some(b.Written())
    ensures r.Pass? ==> Roomy(old(b.Written()), b.Written(), op, b.head)
    ensures r == Fail(Misuse) ==> Apply(old(b.Written()), op) == None
    ensures r == Fail(TooLarge) ==> |b.Written().data| + Need(old(b.Written()), op) > 0x4000_0000
  {
    var n;
    match op
    case StartVectorOp(e, count, alignment) => r := b.StartVector(e, count, alignment);
    case EndVectorOp(count) => r, n := b.EndVector(count);
    case VectorOfTablesOp(offsets) => r, n := b.CreateVectorOfTables(offsets);
    case StringOp(str) => r, n := b.CreateString(str);
    case SharedStringOp(str) => r, n := b.CreateSharedString(str);
    case ByteVectorOp(v) => r, n := b.CreateByteVector(v);
  }

  method Call(b: Builder, op: Op) returns (r: Outcome)
    requires b.Valid() && WellTyped(op) && Callable(b, op)
    modifies b, b.buf
    ensures b.Valid() && (b.buf == old(b.buf) || fresh(b.buf)) && b.len >= old(b.len)
    ensures r.Pass? ==> Apply(old(b.Written()), op) == Some(b.Written())
    ensures r.Pass? ==> Roomy(old(b.Written()), b.Written(), op, b.head)
    ensures r == Fail(Misuse) ==> Apply(old(b.Written()), op) == None
    ensures r == Fail(TooLarge) ==> |b.Written().data| + Need(old(b.Written()), op) > 0x4000_0000
  {
    hide Apply, Roomy, Need, VtableInBounds;
    if op.StartObjectOp? || op.ScalarSlotOp? || op.UOffsetSlotOp? || op.StructSlotOp? || op.EndObjectOp? {
      r := CallObject(b, op);
    } else if op.PrependOp? || op.PrependUOffsetOp? || op.PrepOp? || op.PadOp? || op.FinishOp? {
      r := CallWrite(b, op);
    } else {
      r := CallVector(b, op);
    }
  }

  // ---- A builder that was used before -------------------------------------------------------

  /** Reset leaves `objectEnd` as it was; outside an object nothing depends on it. */
  function Moved(s: State, end: nat): State {
    s.(objectEnd := end)
  }

  predicate Alike(run: Run, s: State) {
    s == run.st || (!run.log.open.InObject? && s == Moved(run.st, s.objectEnd))
  }

  function MovedResult(r: Option<State>, end: nat): Option<State> {
    match r
    case None => None
    case Some(s) => Some(Moved(s, end))
  }

  lemma {:induction false} UOffsetsMoved(s: State, offsets: seq<nat>, end: nat)
    ensures PrependUOffsets(Moved(s, end), offsets) == MovedResult(PrependUOffsets(s, offsets), end)
    decreases |offsets|
  {
    hide LE, Zeros, AlignSize;
    if offsets != [] {
      var first := PrependUOffset(s, offsets[|offsets| - 1]);
      assert PrependUOffset(Moved(s, end), offsets[|offsets| - 1]) == MovedResult(first, end);
      if first.Some? {
        UOffsetsMoved(first.value, offsets[..|offsets| - 1], end);
      }
    }
  }

  lemma ListMoved(s: State, offsets: seq<nat>, end: nat)
    ensures CreateVectorOfTables(Moved(s, end), offsets) == MovedResult(CreateVectorOfTables(s, offsets), end)
  {
    hide LE, Zeros, AlignSize, PrependUOffsets;
    var s1 := Layout.StartVector(s, 4, |offsets|, 4);
    if s1.Some? {
      UOffsetsMoved(s1.value, offsets, end);
    }
  }

  lemma FinishMoved(s: State, root: nat, fid: Option<seq<byte>>, sizePrefix: bool, end: nat)
    ensures Layout.Finish(Moved(s, end), root, fid, sizePrefix)
      == MovedResult(Layout.Finish(s, root, fid, sizePrefix), end)
  {
    hide LE, Zeros, AlignSize;
  }

  lemma StringMoved(s: State, str: seq<byte>, end: nat)
    ensures CreateString(Moved(s, end), str) == MovedResult(CreateString(s, str), end)
    ensures CreateByteVector(Moved(s, end), str) == MovedResult(CreateByteVector(s, str), end)
  {
    hide LE, Zeros, AlignSize;
  }

  lemma ApplyMoved(s: State, op: Op, end: nat)
    requires !op.StartObjectOp? && !op.EndObjectOp?
    ensures Apply(Moved(s, end), op) == MovedResult(Apply(s, op), end)
  {
    hide LE, Zeros, AlignSize, CreateVectorOfTables, Finish, CreateString, CreateByteVector, EndObject, SameValue,
      ZeroSlots;
    match op
    case VectorOfTablesOp(offsets) => ListMoved(s, offsets, end);
    case FinishOp(root, fid, sizePrefix) => FinishMoved(s, root, fid, sizePrefix, end);
    case StringOp(str) => StringMoved(s, str, end);
    case SharedStringOp(str) => StringMoved(s, str, end);
    case ByteVectorOp(v) => StringMoved(s, v, end);
    case _ =>
  }

  lemma OpensObject(run: Run, op: Op, run1: Run)
    requires Step(run, op) == Some(run1) && !op.StartObjectOp? && !run.log.open.InObject?
    ensures !op.EndObjectOp? && !run1.log.open.InObject?
  {
    hide Apply, RoomAfter;
  }

  lemma StartsObject(run: Run, op: Op, run1: Run, s: State)
    requires Step(run, op) == Some(run1) && op.StartObjectOp? && Alike(run, s)
    ensures Apply(s, op) == Some(run1.st)
  {
  }

  /** The same call on either gives alike states. */
  lemma ApplyAlike(run: Run, s: State, op: Op, run1: Run)
    requires Alike(run, s) && Step(run, op) == Some(run1)
    ensures Apply(run.st, op) == Some(run1.st)
    ensures Apply(s, op).Some? && Alike(run1, Apply(s, op).value)
    ensures Need(s, op) == Need(run.st, op)
  {
    hide Step, Apply, LogOp, Bracketed, WellTyped;
    StepParts(run, op);
    if s != run.st {
      if op.StartObjectOp? {
        StartsObject(run, op, run1, s);
      } else {
        OpensObject(run, op, run1);
        ApplyMoved(run.st, op, s.objectEnd);
      }
    }
  }

  /** What a call needs of the invariant. */
  lemma GoodOpens(run: Run, op: Op)
    requires Good(run) && Step(run, op).Some?
    ensures WellTyped(op) && Bracketed(run, op) && OpenOk(run.st, run.log)
    ensures run.log.tables != map[] ==> run.st.minalign >= 4
  {
    hide Apply, LogOp, OpenOk, WordsOk, VtablesOk, TablesOk, VectorsOk, BlobsOk, SharedOk;
  }

  /** In a good state every well-bracketed call has what it needs, whatever the builder's capacity. */
  lemma BracketedIsCallable(b: Builder, run: Run, op: Op)
    requires b.Valid() && Alike(run, b.Written()) && b.head >= run.log.room
    requires Bracketed(run, op) && OpenOk(run.st, run.log)
    requires run.log.tables != map[] ==> run.st.minalign >= 4
    ensures Callable(b, op)
  {
    hide FieldsOk, FlatOk, Registered, PowerOfTwo;
    match op
    case EndObjectOp =>
      forall i | 0 <= i < |b.vtable|
        ensures b.vtable[i] <= b.len - b.head
      {
        assert run.st.vtable[i] == 0 || run.st.vtable[i] <= |run.st.data|;
      }
    case _ =>
  }

  /** A prefix of a well-bracketed run is one. */
  lemma {:induction false} PrefixRuns(ops: seq<Op>, i: nat)
    requires RunAll(ops).Some? && i <= |ops|
    ensures RunAll(ops[..i]).Some?
    decreases |ops|
  {
    if i == |ops| {
      assert ops[..i] == ops;
    } else {
      hide Step;
      assert ops[..|ops| - 1][..i] == ops[..i];
      PrefixRuns(ops[..|ops| - 1], i);
    }
  }

  lemma NextRun(ops: seq<Op>, i: nat)
    requires RunAll(ops).Some? && i < |ops|
    ensures RunAll(ops[..i]).Some? && RunAll(ops[..i + 1]).Some?
    ensures Good(RunAll(ops[..i]).value) && Step(RunAll(ops[..i]).value, ops[i]) == RunAll(ops[..i + 1])
  {
    hide Step, Good;
    PrefixRuns(ops, i);
    PrefixRuns(ops, i + 1);
    ReachableIsGood(ops[..i]);
    assert ops[..i + 1][..i] == ops[..i];
  }

  /** The room that one step leaves. */
  lemma StepRoom(run: Run, op: Op, run1: Run, s: State, s1: State, head: nat)
    requires Good(run) && Step(run, op) == Some(run1) && s.data == run.st.data && s1.data == run1.st.data
    requires Roomy(s, s1, op, head) && head + |s1.data| >= run.log.room + |s.data|
    ensures head >= run1.log.room
  {
    hide Step, Apply, LogOp, WellTyped, Bracketed, Good, Keyed;
    StepParts(run, op);
    GoodIsKeyed(run);
    StepIsLater(run, op);
    RoomyFits(run.log.room, run.st, run1.st, op, head);
  }

  /** Where growth stopped a run: the data so far and the call that did not fit. */
  ghost predicate OutgrewAt(ops: seq<Op>, k: nat, size: nat) {
    k < |ops| && RunAll(ops[..k]).Some? && size + Need(RunAll(ops[..k]).value.st, ops[k]) > 0x4000_0000
  }

  /**
   The builder refines the run: the same calls write the same bytes from any initial size, and
   over any stale contents after Reset. It never panics for misuse, and for growth only when the
   data and one call's need pass one gigabyte.
   */
  method Execute(b: Builder, ops: seq<Op>) returns (r: Outcome)
    requires b.Valid() && b.Written() == Moved(START.st, b.objectEnd) && RunAll(ops).Some?
    modifies b, b.buf
    ensures b.Valid() && (b.buf == old(b.buf) || fresh(b.buf))
    ensures r.Pass? ==> b.Written() == Moved(RunAll(ops).value.st, b.objectEnd)
    ensures r.Pass? && RunAll(ops).value.st.finished ==> b.finished && b.Written().data == RunAll(ops).value.st.data
    ensures r.Fail? ==> r.panic == TooLarge && exists k :: OutgrewAt(ops, k, |b.Written().data|)
  {
    hide Step, Good, Apply, Roomy, Need, Callable, WellTyped, Bracketed, OpenOk, Registered, PowerOfTwo;
    var i := 0;
    assert ops[..0] == [];
    while i < |ops|
      invariant 0 <= i <= |ops| && b.Valid() && (b.buf == old(b.buf) || fresh(b.buf))
      invariant RunAll(ops[..i]).Some? && Alike(RunAll(ops[..i]).value, b.Written())
      invariant b.head >= RunAll(ops[..i]).value.log.room
    {
      ghost var run, s := RunAll(ops[..i]).value, b.Written();
      NextRun(ops, i);
      ghost var run1 := RunAll(ops[..i + 1]).value;
      GoodOpens(run, ops[i]);
      BracketedIsCallable(b, run, ops[i]);
      ApplyAlike(run, s, ops[i], run1);
      r := Call(b, ops[i]);
      if r.Fail? {
        assert r != Fail(Misuse);
        assert r.panic == TooLarge;
        assert OutgrewAt(ops, i, |b.Written().data|);
        return r;
      }
      StepRoom(run, ops[i], run1, s, b.Written(), b.head);
      i := i + 1;
    }
    assert ops[..i] == ops;
    r := Pass;
  }

  /** A second run after Reset writes what it would write on a new builder. */
  method ResetAndExecute(b: Builder, ops: seq<Op>) returns (r: Outcome)
    requires b.Valid() && RunAll(ops).Some?
    modifies b, b.buf
    ensures b.Valid() && (r.Pass? ==> b.Written().data == RunAll(ops).value.st.data)
    ensures r.Fail? ==> r.panic == TooLarge && exists k :: OutgrewAt(ops, k, |b.Written().data|)
  {
    hide Step, Registered, PowerOfTwo;
    b.Reset();
    r := Execute(b, ops);
  }
}
