/**
 Runs of the PHP builder after forceDefaults(true): every slot call writes its value, also one that
 equals the default. Such a run is the run in which every slot has a default that its value does not
 equal, so that all that holds of runs in Go and in PHP holds of it.
 */
module PhpForced {
  import opened Bits
  import opened Codec
  import opened Wrappers
  import opened Layout
  import opened Prepends
  import opened Runs
  import opened RoundTrip
  import opened WholeRuns
  import opened Theorems
  import opened PhpRuns
  import F = Floats
  import G = GoTable
  import N = PhpNumbers
  import P = PhpLayout

  // ---- Single calls -------------------------------------------------------------------

  /** With forceDefaults set, an accepted value is always written, and the slot set to it. */
  lemma ForcedScalarIsWritten(p: P.PhpState, slot: nat, size: pos, kind: Kind, x: int, d: int)
    requires p.forceDefaults && slot < |p.st.vtable| && P.Accepted(kind, size, x) && P.Determined(kind, size, x)
    ensures var r := P.AddScalarX(p, slot, size, kind, x, d);
      && r.Some? && |r.value.st.data| >= |p.st.data| + size && r.value.st.data[..size] == LE(x, size)
      && r.value.st.vtable == p.st.vtable[slot := |r.value.st.data|]
  {
    hide P.Accepted, P.Determined, P.IsDefault, LE, AlignSize;
  }

  /** And so is an offset that addOffset accepts. */
  lemma ForcedOffsetIsWritten(p: P.PhpState, slot: nat, x: nat, d: nat)
    requires p.forceDefaults && slot < |p.st.vtable| && P.AddOffset(p, x).Some?
    ensures var r := P.AddOffsetX(p, slot, x, d);
      && r.Some? && r.value.st.data == P.AddOffset(p, x).value.st.data && |r.value.st.data| >= |p.st.data| + 4
      && r.value.st.vtable == p.st.vtable[slot := |r.value.st.data|]
  {
    hide LE, AlignSize;
  }

  // ---- A default that a value does not equal ---------------------------------------------

  function NotANumber(size: nat): nat {
    if size == 4 then 0x7fc0_0000 else 0x7ff8_0000_0000_0000
  }

  /** Another value of the type; for a float NaN, which nothing equals. */
  function Another(kind: Kind, size: nat, x: int): nat {
    if kind.Floating? then NotANumber(size) else if x == 0 then 1 else 0
  }

  /** The call with such a default, so that it writes its value. */
  function Distinct(op: Op): Op {
    match op
    case ScalarSlotOp(slot, size, kind, x, _) => ScalarSlotOp(slot, size, kind, x, Another(kind, size, x))
    case UOffsetSlotOp(slot, off, _) => UOffsetSlotOp(slot, off, off + 1)
    case _ => op
  }

  function AllDistinct(ops: seq<Op>): (r: seq<Op>)
    ensures |r| == |ops| && forall i :: 0 <= i < |r| ==> r[i] == Distinct(ops[i])
  {
    seq(|ops|, i requires 0 <= i < |ops| => Distinct(ops[i]))
  }

  /** The value does not equal the other one, in Go as in PHP. */
  lemma AnotherDiffers(kind: Kind, size: nat, x: int)
    requires InType(kind, size, x) && IsSize(size)
    ensures InType(kind, size, Another(kind, size, x)) && !F.Equals(kind, size, x, Another(kind, size, x))
    ensures !P.IsDefault(kind, size, x, Another(kind, size, x))
  {
    hide N.Nearest;
    Widths();
    var d := Another(kind, size, x);
    if !kind.Floating? {
      N.NearestOfTop();
      assert N.Literal(d) == N.Whole(d);
      if !N.Argument(x).Whole? {
        N.NearestAbove(x);
        NearestOfOne();
      }
    }
  }

  lemma NearestOfOne()
    ensures N.Nearest(1) == 1
  {
  }

  /** What a call of Go does with such a default: it prepends the value and sets the slot. */
  lemma DistinctWrites(s: State, op: Op)
    requires WellTyped(Distinct(op))
    ensures op.ScalarSlotOp? ==> Apply(s, Distinct(op)) == Slot(PrependScalar(s, op.size, op.x), op.slot)
    ensures op.UOffsetSlotOp? ==>
      Apply(s, Distinct(op)) == (match PrependUOffset(s, op.off) case None => None case Some(s1) => Slot(s1, op.slot))
    ensures !op.ScalarSlotOp? && !op.UOffsetSlotOp? ==> Distinct(op) == op
  {
    hide F.Equals, SameValue, InType, PrependScalar, PrependUOffset, Slot;
    if op.ScalarSlotOp? {
      AnotherDiffers(op.kind, op.size, op.x);
      F.SameIsEqual(op.kind, op.size, op.x, Another(op.kind, op.size, op.x));
    }
  }

  // ---- Whole runs ---------------------------------------------------------------------

  function Forced(p: P.PhpState): P.PhpState {
    p.(forceDefaults := true)
  }

  function ForcedOption(r: Option<P.PhpState>): Option<P.PhpState> {
    match r
    case None => None
    case Some(p) => Some(Forced(p))
  }

  /** A run of a new builder on which forceDefaults(true) has been called. */
  function ForcedRun(ops: seq<Op>): (r: Option<P.PhpState>)
    requires forall op | op in ops :: InForced(op)
    ensures r.Some? ==> r.value.forceDefaults
    decreases |ops|
  {
    if ops == [] then Some(Forced(P.PHP_INITIAL))
    else
      match ForcedRun(ops[..|ops| - 1])
      case None => None
      case Some(p) => PhpApply(p, ops[|ops| - 1])
  }

  lemma DistinctInPhp(op: Op)
    requires InForced(op)
    ensures InPhp(Distinct(op))
  {
  }

  lemma ForcedStep(p: P.PhpState, op: Op)
    requires InForced(op) && WellTyped(Distinct(op)) && !p.forceDefaults
    ensures InPhp(Distinct(op)) && PhpApply(Forced(p), op) == ForcedOption(PhpApply(p, Distinct(op)))
  {
    hide P.IsDefault, P.Determined, P.Accepted, InType, LE, Zeros, AlignSize, Trim, F.Equals, P.AddBytes, P.EndState,
      P.IsUtf8;
    DistinctInPhp(op);
    if op.ScalarSlotOp? {
      AnotherDiffers(op.kind, op.size, op.x);
    }
    if op.FinishOp? {
      ForcedFinish(p, op.root, op.fid);
    }
  }

  lemma {:induction false} ForcedBytes(p: P.PhpState, bytes: seq<byte>)
    ensures P.AddBytes(Forced(p), bytes) == Forced(P.AddBytes(p, bytes))
    decreases |bytes|
  {
    hide AlignSize, Zeros, LE;
    if bytes != [] {
      ForcedBytes(P.AddByte(p, bytes[|bytes| - 1]), bytes[..|bytes| - 1]);
    }
  }

  lemma ForcedFinish(p: P.PhpState, root: nat, fid: Option<seq<byte>>)
    ensures P.Finish(Forced(p), root, fid) == ForcedOption(P.Finish(p, root, fid))
  {
    hide AlignSize, Zeros, LE, P.AddBytes;
    if fid.Some? {
      ForcedBytes(P.Prep(p, p.st.minalign, 8), fid.value);
    }
  }

  /** A forced run is the run with other defaults. */
  lemma {:induction false} ForcedRunIs(ops: seq<Op>)
    requires (forall op | op in ops :: InForced(op)) && RunAll(AllDistinct(ops)).Some?
    ensures forall op | op in AllDistinct(ops) :: InPhp(op)
    ensures ForcedRun(ops) == ForcedOption(PhpRun(AllDistinct(ops)))
    decreases |ops|
  {
    hide Distinct, Apply, LogOp, PhpApply, WellTyped, Bracketed, InPhp, InForced;
    AllInPhp(ops);
    var all := AllDistinct(ops);
    if ops != [] {
      var before, op := ops[..|ops| - 1], ops[|ops| - 1];
      assert all[..|all| - 1] == AllDistinct(before);
      assert Step(RunAll(all[..|all| - 1]).value, Distinct(op)).Some?;
      ForcedRunIs(before);
      if PhpRun(AllDistinct(before)).Some? {
        ForcedStep(PhpRun(AllDistinct(before)).value, op);
      }
    }
  }

  lemma AllInPhp(ops: seq<Op>)
    requires forall op | op in ops :: InForced(op)
    ensures forall op | op in AllDistinct(ops) :: InPhp(op)
  {
    hide InForced, InPhp, Distinct;
    forall op | op in AllDistinct(ops)
      ensures InPhp(op)
    {
      var i :| 0 <= i < |ops| && op == AllDistinct(ops)[i];
      assert ops[i] in ops;
      DistinctInPhp(ops[i]);
    }
  }

  /** For a forced slot only the value counts: unsafe are the unsigned numbers of eight bytes from 2^63 on. */
  lemma ForcedSafeMeans(r: Run, op: Op)
    requires op.ScalarSlotOp? && WellTyped(Distinct(op)) && InForced(op)
    ensures Safe(r, Distinct(op)) <==> op.size < 8 || op.kind.Floating? || op.x < 0x8000_0000_0000_0000
  {
    hide P.IsDefault, P.Accepted, P.Determined, F.Equals, SameValue;
    Widths();
    AnotherDiffers(op.kind, op.size, op.x);
    F.SameIsEqual(op.kind, op.size, op.x, Another(op.kind, op.size, op.x));
    P.AcceptedMeans(op.kind, op.size, op.x);
    if op.kind.Floating? {
      FloatsAreAccepted(op.size, op.x, 0);
    }
  }

  /** A forced run whose calls are safe writes what Go writes when it prepends every value and sets its slot. */
  lemma ForcedBytesAgree(ops: seq<Op>)
    requires (forall op | op in ops :: InForced(op)) && RunAll(AllDistinct(ops)).Some?
    requires |RunAll(AllDistinct(ops)).value.st.data| < 0x8000_0000 && AllSafe(AllDistinct(ops))
    ensures ForcedRun(ops).Some? && ForcedRun(ops).value.st.data == RunAll(AllDistinct(ops)).value.st.data
  {
    hide Step, Safe, Agrees, PhpApply, Distinct, InForced, InPhp, AllSafe;
    ForcedRunIs(ops);
    FinishedBytesAgree(AllDistinct(ops));
  }

  lemma {:induction false} DistinctLeaves(ops: seq<Op>, j: nat, k: nat, slot: nat)
    requires j <= k <= |ops| && forall m | j <= m < k :: LeavesSlot(ops[m], slot)
    ensures forall m | j <= m < k :: LeavesSlot(AllDistinct(ops)[m], slot)
  {
    forall m | j <= m < k
      ensures LeavesSlot(AllDistinct(ops)[m], slot)
    {
      assert LeavesSlot(ops[m], slot);
    }
  }

  lemma DistinctAt(ops: seq<Op>, i: nat)
    requires i < |ops|
    ensures AllDistinct(ops)[i] == Distinct(ops[i])
    ensures ops[i].EndObjectOp? ==> AllDistinct(ops)[i] == EndObjectOp
    ensures ops[i].UOffsetSlotOp? ==> AllDistinct(ops)[i] == UOffsetSlotOp(ops[i].slot, ops[i].off, ops[i].off + 1)
    ensures ops[i].ScalarSlotOp? ==>
      AllDistinct(ops)[i] == ScalarSlotOp(ops[i].slot, ops[i].size, ops[i].kind, ops[i].x,
                                          Another(ops[i].kind, ops[i].size, ops[i].x))
  {
  }

  /**
   In a forced run every slot of a finished object that a scalar was put into is present, and reads
   as that scalar, also if it equals the default.
   */
  lemma ForcedSlotReadsBack(ops: seq<Op>, states: seq<Run>, j: nat, k: nat)
    requires (forall op | op in ops :: InForced(op)) && IsTrace(AllDistinct(ops), states)
    requires |Buffer(states)| < 0x8000_0000 && RunAll(AllDistinct(ops)).Some? && AllSafe(AllDistinct(ops))
    requires j < k < |ops| && ops[j].ScalarSlotOp? && ops[k].EndObjectOp?
    requires forall m | j < m < k :: LeavesSlot(ops[m], ops[j].slot)
    ensures ForcedRun(ops).Some? && ForcedRun(ops).value.st.data == Buffer(states)
    ensures var op, pos := ops[j], Position(states, ObjectOffset(states[k].st));
      && pos >= 0 && G.Offset(Buffer(states), pos, 4 + 2 * op.slot).Some?
      && G.Offset(Buffer(states), pos, 4 + 2 * op.slot) != Some(0)
      && ReadsAs(Buffer(states), pos, 4 + 2 * op.slot, op.kind, op.size, op.x)
  {
    hide *;
    var all := AllDistinct(ops);
    TraceIsRun(all, states, |all|);
    assert all[..|all|] == all;
    BufferIsLast(all, states, 0);
    ForcedBytesAgree(ops);
    DistinctLeaves(ops, j + 1, k, ops[j].slot);
    DistinctAt(ops, j);
    DistinctAt(ops, k);
    EveryScalarReadsBack(all, states, j, k);
    CallSplits(all, states, j);
    ScalarSlotIsTyped(states[j], all[j], states[j + 1]);
    SizeIsOne(states[j], all[j], states[j + 1]);
    AnotherDiffers(ops[j].kind, ops[j].size, ops[j].x);
  }

  lemma SizeIsOne(r: Run, op: Op, r1: Run)
    requires Step(r, op) == Some(r1) && op.ScalarSlotOp?
    ensures IsSize(op.size)
  {
    hide Apply, LogOp, InType;
  }

  /** The same for an offset that was put into a slot. */
  lemma ForcedOffsetReadsBack(ops: seq<Op>, states: seq<Run>, j: nat, k: nat)
    requires (forall op | op in ops :: InForced(op)) && IsTrace(AllDistinct(ops), states)
    requires |Buffer(states)| < 0x8000_0000 && RunAll(AllDistinct(ops)).Some? && AllSafe(AllDistinct(ops))
    requires j < k < |ops| && ops[j].UOffsetSlotOp? && ops[k].EndObjectOp?
    requires forall m | j < m < k :: LeavesSlot(ops[m], ops[j].slot)
    ensures ForcedRun(ops).Some? && ForcedRun(ops).value.st.data == Buffer(states)
    ensures var pos := Position(states, ObjectOffset(states[k].st));
      pos >= 0 && SlotReads(Buffer(states), pos, 4 + 2 * ops[j].slot, Reference(ops[j].off))
  {
    hide *;
    var all := AllDistinct(ops);
    TraceIsRun(all, states, |all|);
    assert all[..|all|] == all;
    BufferIsLast(all, states, 0);
    ForcedBytesAgree(ops);
    DistinctLeaves(ops, j + 1, k, ops[j].slot);
    DistinctAt(ops, j);
    DistinctAt(ops, k);
    EverySlotReadsBack(all, states, k, ops[j].slot);
    LastWriteStays(all, j + 1, k, ops[j].slot);
    OffsetWrite(all, j);
  }

  lemma OffsetWrite(all: seq<Op>, j: nat)
    requires j < |all| && all[j].UOffsetSlotOp? && all[j].off != all[j].dflt
    ensures LastWrite(all[..j + 1], all[j].slot) == Reference(all[j].off)
  {
    assert all[..j + 1][|all[..j + 1]| - 1] == all[j];
  }
}
