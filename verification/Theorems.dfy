/**
 The main results, each about one whole run of the builder. `states` are the states of the run, one
 more than it has calls: call number `k` leads from `states[k]` to `states[k + 1]`.
 */
module Theorems {
  import opened Bits
  import opened Codec
  import opened Wrappers
  import opened Layout
  import opened Prepends
  import opened Runs
  import opened Stability
  import opened Invariants
  import opened Reachable
  import opened RoundTrip
  import opened WholeRuns
  import opened ObjectGraph
  import F = Floats
  import G = GoTable

  /** The states that the calls `run` lead through, from a new builder on. */
  predicate IsTrace(run: seq<Op>, states: seq<Run>)
    decreases |run|
  {
    && |states| == |run| + 1
    && if run == [] then states[0] == START
       else
         && IsTrace(run[..|run| - 1], states[..|run|])
         && Step(states[|run| - 1], run[|run| - 1]) == Some(states[|run|])
  }

  /** Every well-bracketed run has one trace, and every trace is one of a well-bracketed run. */
  lemma {:induction false} TraceOfRun(run: seq<Op>) returns (states: seq<Run>)
    requires RunAll(run).Some?
    ensures IsTrace(run, states) && states[|run|] == RunAll(run).value
    decreases |run|
  {
    hide Step;
    if run == [] {
      states := [START];
    } else {
      var before := TraceOfRun(run[..|run| - 1]);
      states := before + [RunAll(run).value];
      assert states[..|run|] == before;
    }
  }

  lemma {:induction false} TraceIsRun(run: seq<Op>, states: seq<Run>, k: nat)
    requires IsTrace(run, states) && k <= |run|
    ensures RunAll(run[..k]) == Some(states[k]) && IsTrace(run[..k], states[..k + 1])
    decreases |run|
  {
    hide Step;
    if k == |run| {
      assert run[..k] == run && states[..k + 1] == states;
      if run != [] {
        TraceIsRun(run[..|run| - 1], states[..|run|], |run| - 1);
        assert run[..|run| - 1][..|run| - 1] == run[..|run| - 1];
      }
    } else {
      TraceIsRun(run[..|run| - 1], states[..|run|], k);
      assert run[..|run| - 1][..k] == run[..k] && states[..|run|][..k + 1] == states[..k + 1];
    }
  }

  /** A run is a run up to a call, and a run from there on. */
  lemma {:induction false} RestOfTrace(run: seq<Op>, states: seq<Run>, k: nat)
    requires IsTrace(run, states) && k <= |run|
    ensures RunFrom(states[k], run[k..]) == Some(states[|run|])
    decreases |run|
  {
    hide Step;
    if k == |run| {
      assert run[k..] == [];
    } else {
      RestOfTrace(run[..|run| - 1], states[..|run|], k);
      assert run[k..][..|run| - 1 - k] == run[..|run| - 1][k..];
    }
  }

  /** A call in a run: the state before it, the state after it, and the rest of the run. */
  lemma CallSplits(run: seq<Op>, states: seq<Run>, k: nat)
    requires IsTrace(run, states) && k < |run|
    ensures RunAll(run[..k]) == Some(states[k]) && Step(states[k], run[k]) == Some(states[k + 1])
    ensures RunFrom(states[k + 1], run[k + 1..]) == Some(states[|run|])
    ensures Good(states[k]) && Good(states[k + 1])
  {
    hide Step, Good;
    TraceIsRun(run, states, k);
    TraceIsRun(run, states, k + 1);
    assert run[..k + 1][..k] == run[..k];
    RestOfTrace(run, states, k + 1);
    ReachableIsGood(run[..k]);
    ReachableIsGood(run[..k + 1]);
  }

  /** The buffer at the end of a run; the readers wrap at 32 bits, and signed offsets at 31. */
  function Buffer(states: seq<Run>): seq<byte>
    requires states != []
  {
    states[|states| - 1].st.data
  }

  /** The position in the buffer of the offset `o`. */
  function Position(states: seq<Run>, o: nat): int
    requires states != []
  {
    |Buffer(states)| - o
  }

  /** In the buffer stands an offset word, `p` bytes from its end, that leads to the offset `o`. */
  predicate Leads(states: seq<Run>, p: nat, o: nat)
    requires states != []
  {
    At(p, Ref(o)) in states[|states| - 1].log.words
  }

  lemma BufferIsLast(run: seq<Op>, states: seq<Run>, o: nat)
    requires IsTrace(run, states)
    ensures |states| == |run| + 1 && Buffer(states) == states[|run|].st.data
    ensures Position(states, o) == |states[|run|].st.data| - o
  {
  }

  lemma LeadsIsLast(run: seq<Op>, states: seq<Run>, p: nat, o: nat)
    requires IsTrace(run, states)
    ensures |states| == |run| + 1 && (Leads(states, p, o) <==> At(p, Ref(o)) in states[|run|].log.words)
  {
  }

  /**
   Round trip of tables. Call number `k` ends an object: at the end of the run every slot of that
   object, written or not, reads as the last non-default value written to it, whether its vtable
   is new, trimmed or shared.
   */
  lemma EverySlotReadsBack(run: seq<Op>, states: seq<Run>, k: nat, i: nat)
    requires IsTrace(run, states) && |Buffer(states)| < 0x8000_0000 && k < |run| && run[k].EndObjectOp?
    ensures var pos := Position(states, ObjectOffset(states[k].st));
      pos >= 0 && SlotReads(Buffer(states), pos, 4 + 2 * i, LastWrite(run[..k], i))
  {
    hide *;
    BufferIsLast(run, states, 0);
    BufferIsLast(run, states, ObjectOffset(states[k].st));
    CallSplits(run, states, k);
    TableRoundTrip(run[..k], states[k], states[k + 1], run[k + 1..], states[|run|], i);
  }

  /** The call neither starts nor ends an object, nor is it for this slot. */
  predicate LeavesSlot(op: Op, slot: nat) {
    && !op.StartObjectOp? && !op.EndObjectOp?
    && (op.ScalarSlotOp? || op.UOffsetSlotOp? || op.StructSlotOp? ==> op.slot != slot)
  }

  lemma {:induction false} LastWriteStays(run: seq<Op>, j: nat, k: nat, slot: nat)
    requires j <= k <= |run| && forall m | j <= m < k :: LeavesSlot(run[m], slot)
    ensures LastWrite(run[..k], slot) == LastWrite(run[..j], slot)
    decreases k - j
  {
    if j < k {
      assert run[..k][..k - 1] == run[..k - 1];
      LastWriteStays(run, j, k - 1, slot);
    }
  }

  lemma LastOf(run: seq<Op>, j: nat)
    requires j < |run| && run[j].ScalarSlotOp?
    ensures LastWrite(run[..j + 1], run[j].slot) ==
      if F.Equals(run[j].kind, run[j].size, run[j].x, run[j].d) then LastWrite(run[..j], run[j].slot)
      else Value(run[j].x, run[j].size)
  {
    hide F.Equals;
    assert run[..j + 1][..j] == run[..j];
  }

  /** The getter of the type gives the value, whatever default it is given. */
  ghost predicate ReadsAs(data: seq<byte>, pos: nat, slot: nat, kind: Kind, k: nat, x: int) {
    forall d :: G.GetSlot(data, pos, slot, kind, k, d) == Some(x)
  }

  /** A value that is present, read by the getters of its own type. */
  lemma ValueIsRead(data: seq<byte>, pos: nat, slot: nat, kind: Kind, x: int, k: nat)
    requires SlotReads(data, pos, slot, Value(x, k)) && InType(kind, k, x)
    ensures G.Offset(data, pos, slot).Some? && G.Offset(data, pos, slot) != Some(0)
    ensures ReadsAs(data, pos, slot, kind, k, x)
  {
    hide G.Offset, G.GetSlot, InType, Interpret;
  }

  lemma ScalarSlotIsTyped(r: Run, op: Op, r1: Run)
    requires Step(r, op) == Some(r1) && op.ScalarSlotOp?
    ensures InType(op.kind, op.size, op.x) && InType(op.kind, op.size, op.d)
  {
    hide Apply, LogOp, InType;
  }

  /**
   Scalars one by one, floats by the numbers that their patterns stand for. Call number `j` is the
   last one for its slot in the object that call number `k` ends. If its value does not equal the
   default, which NaN never does, the slot reads as the value, bit for bit; if it does, the slot is
   what it was before, and so absent if nothing had been written to it.
   */
  lemma EveryScalarReadsBack(run: seq<Op>, states: seq<Run>, j: nat, k: nat)
    requires IsTrace(run, states) && |Buffer(states)| < 0x8000_0000
    requires j < k < |run| && run[j].ScalarSlotOp? && run[k].EndObjectOp?
    requires forall m | j < m < k :: LeavesSlot(run[m], run[j].slot)
    ensures var op, pos := run[j], Position(states, ObjectOffset(states[k].st));
      var offset := if pos >= 0 then G.Offset(Buffer(states), pos, 4 + 2 * op.slot) else None;
      && pos >= 0 && offset.Some?
      && (!F.Equals(op.kind, op.size, op.x, op.d) ==>
           offset != Some(0) && ReadsAs(Buffer(states), pos, 4 + 2 * op.slot, op.kind, op.size, op.x))
      && (F.Equals(op.kind, op.size, op.x, op.d) ==>
           SlotReads(Buffer(states), pos, 4 + 2 * op.slot, LastWrite(run[..j], op.slot)))
      && (LastWrite(run[..j], op.slot) == Absent ==>
           (offset == Some(0) <==> F.Equals(op.kind, op.size, op.x, op.d)))
  {
    hide *;
    var op := run[j];
    BufferIsLast(run, states, 0);
    EverySlotReadsBack(run, states, k, op.slot);
    CallSplits(run, states, j);
    ScalarSlotIsTyped(states[j], op, states[j + 1]);
    LastWriteStays(run, j + 1, k, op.slot);
    LastOf(run, j);
    var pos := Position(states, ObjectOffset(states[k].st));
    if F.Equals(op.kind, op.size, op.x, op.d) {
      OffsetIsRead(Buffer(states), pos, 4 + 2 * op.slot, LastWrite(run[..j], op.slot));
    } else {
      ValueIsRead(Buffer(states), pos, 4 + 2 * op.slot, op.kind, op.x, op.size);
    }
  }

  lemma OffsetIsRead(data: seq<byte>, pos: nat, slot: nat, f: Field)
    requires SlotReads(data, pos, slot, f)
    ensures G.Offset(data, pos, slot).Some? && (f == Absent ==> G.Offset(data, pos, slot) == Some(0))
  {
    hide G.Offset, G.GetSlot;
  }

  /** The same from the first byte of a finished buffer, when the object is the root that Finish is given last. */
  lemma RootReadsBack(run: seq<Op>, states: seq<Run>, k: nat, fid: Option<seq<byte>>, sizePrefix: bool, i: nat)
    requires IsTrace(run, states) && |Buffer(states)| < 0x8000_0000 && k < |run| && run[k].EndObjectOp?
    requires run[|run| - 1] == FinishOp(ObjectOffset(states[k].st), fid, sizePrefix)
    ensures var root :=
        if sizePrefix then G.GetSizePrefixedRootAs(Buffer(states), 0) else G.GetRootAs(Buffer(states), 0);
      && root == Some(Position(states, ObjectOffset(states[k].st)))
      && SlotReads(Buffer(states), root.value, 4 + 2 * i, LastWrite(run[..k], i))
  {
    hide *;
    BufferIsLast(run, states, 0);
    BufferIsLast(run, states, ObjectOffset(states[k].st));
    EverySlotReadsBack(run, states, k, i);
    CallSplits(run, states, |run| - 1);
    RootIsFound(states[|run| - 1], ObjectOffset(states[k].st), fid, sizePrefix, states[|run|]);
  }

  /** Whole object graphs: what the run has recorded under the root is what the finished buffer decodes to. */
  lemma GraphReadsBack(run: seq<Op>, states: seq<Run>, root: nat, fid: Option<seq<byte>>, sizePrefix: bool,
                       shape: Shape)
    requires IsTrace(run, states) && |Buffer(states)| < 0x8000_0000
    requires run != [] && run[|run| - 1] == FinishOp(root, fid, sizePrefix)
    requires Denote(states[|run| - 1].log, shape, Reference(root)).Some?
    ensures Decode(Buffer(states), shape, 0, if sizePrefix then 4 else 0)
      == Denote(states[|run| - 1].log, shape, Reference(root))
  {
    hide *;
    BufferIsLast(run, states, 0);
    CallSplits(run, states, |run| - 1);
    RootRoundTrip(states[|run| - 1], root, fid, sizePrefix, states[|run|], shape);
  }

  /** Strings and byte vectors read back exactly, through any offset to them. */
  lemma EveryStringReadsBack(run: seq<Op>, states: seq<Run>, k: nat, p: nat)
    requires IsTrace(run, states) && |Buffer(states)| < 0x8000_0000
    requires k < |run| && (run[k].StringOp? || run[k].ByteVectorOp?)
    requires Leads(states, p, |states[k + 1].st.data|)
    ensures Position(states, p) >= 0
    ensures G.ByteVector(Buffer(states), Position(states, p))
      == Some(if run[k].StringOp? then run[k].str else run[k].bytes)
  {
    hide *;
    BufferIsLast(run, states, p);
    LeadsIsLast(run, states, p, |states[k + 1].st.data|);
    CallSplits(run, states, k);
    BytesRoundTrip(states[k], run[k], states[k + 1], run[k + 1..], states[|run|], p);
  }

  /** Every string stands in the buffer with a zero byte behind it. */
  lemma EveryStringIsTerminated(run: seq<Op>, states: seq<Run>, k: nat)
    requires IsTrace(run, states) && k < |run| && run[k].StringOp?
    ensures var at, n := Position(states, |states[k + 1].st.data|) + 4, |run[k].str|;
      0 <= at && at + n < |Buffer(states)| && Buffer(states)[at..at + n] == run[k].str && Buffer(states)[at + n] == 0
  {
    hide *;
    BufferIsLast(run, states, 0);
    BufferIsLast(run, states, |states[k + 1].st.data|);
    CallSplits(run, states, k);
    StringsAreTerminated(states[k], run[k].str, states[k + 1], run[k + 1..], states[|run|]);
  }

  /** An interned string keeps its offset, which keeps reading as the string. */
  lemma EverySharedStringStays(run: seq<Op>, states: seq<Run>, k: nat, str: seq<byte>, p: nat)
    requires IsTrace(run, states) && |Buffer(states)| < 0x8000_0000
    requires k <= |run| && str in states[k].st.shared && Leads(states, p, states[k].st.shared[str])
    ensures CreateSharedString(states[|run|].st, str) == Some((states[|run|].st, states[k].st.shared[str]))
    ensures Position(states, p) >= 0 && G.ByteVector(Buffer(states), Position(states, p)) == Some(str)
  {
    hide *;
    BufferIsLast(run, states, p);
    LeadsIsLast(run, states, p, states[k].st.shared[str]);
    TraceIsRun(run, states, k);
    RestOfTrace(run, states, k);
    ReachableIsGood(run[..k]);
    SharedStringsAreStable(states[k], str, run[k..], states[|run|], p);
  }

  /** What call number `k`, of CreateSharedString, returns. */
  function Returned(run: seq<Op>, states: seq<Run>, k: nat): nat
    requires k < |run| && k < |states| && run[k].SharedStringOp?
    requires CreateSharedString(states[k].st, run[k].shared).Some?
  {
    SharedOffset(states[k].st, run[k].shared)
  }

  /**
   Every call of CreateSharedString, whether the string is new or not: any offset word that leads to
   what it returned reads as the string, and the string stands there with a zero byte behind it.
   */
  lemma EverySharedStringReadsBack(run: seq<Op>, states: seq<Run>, k: nat, p: nat)
    requires IsTrace(run, states) && k < |run| && run[k].SharedStringOp?
    ensures CreateSharedString(states[k].st, run[k].shared).Some?
    ensures var at, n := Position(states, Returned(run, states, k)) + 4, |run[k].shared|;
      && 0 <= at && at + n < |Buffer(states)|
      && Buffer(states)[at..at + n] == run[k].shared && Buffer(states)[at + n] == 0
    ensures |Buffer(states)| < 0x8000_0000 && Leads(states, p, Returned(run, states, k)) ==>
      Position(states, p) >= 0 && G.ByteVector(Buffer(states), Position(states, p)) == Some(run[k].shared)
  {
    hide *;
    BufferIsLast(run, states, p);
    CallSplits(run, states, k);
    SharedRoundTrip(states[k], run[k].shared, states[k + 1], run[k + 1..], states[|run|], p);
    BufferIsLast(run, states, SharedOffset(states[k].st, run[k].shared));
    LeadsIsLast(run, states, p, SharedOffset(states[k].st, run[k].shared));
    assert Returned(run, states, k) == SharedOffset(states[k].st, run[k].shared) by { ReturnedIs(run, states, k); }
  }

  lemma ReturnedIs(run: seq<Op>, states: seq<Run>, k: nat)
    requires k < |run| && k < |states| && run[k].SharedStringOp?
    requires CreateSharedString(states[k].st, run[k].shared).Some?
    ensures Returned(run, states, k) == SharedOffset(states[k].st, run[k].shared)
  {
  }

  /** Two calls with equal strings return equal offsets, and the second writes nothing. */
  lemma EqualStringsAreOne(run: seq<Op>, states: seq<Run>, j: nat, k: nat)
    requires IsTrace(run, states) && j < k < |run|
    requires run[j].SharedStringOp? && run[k].SharedStringOp? && run[j].shared == run[k].shared
    ensures CreateSharedString(states[j].st, run[j].shared).Some?
    ensures CreateSharedString(states[k].st, run[k].shared).Some?
    ensures Returned(run, states, j) == Returned(run, states, k) && states[k + 1].st == states[k].st
  {
    hide *;
    BufferIsLast(run, states, 0);
    CallSplits(run, states, k);
    TraceIsRun(run, states, k);
    CallSplits(run[..k], states[..k + 1], j);
    SharedAgain(states[j], run[j].shared, states[j + 1], run[..k][j + 1..], states[k], states[k + 1]);
    ReturnedIs(run, states, j);
    ReturnedIs(run, states, k);
  }

  /** Vectors of tables: VectorLen, Vector and Indirect give back exactly the offsets, in order. */
  lemma EveryListReadsBack(run: seq<Op>, states: seq<Run>, k: nat, p: nat, i: nat)
    requires IsTrace(run, states) && |Buffer(states)| < 0x8000_0000
    requires k < |run| && run[k].VectorOfTablesOp? && Leads(states, p, |states[k + 1].st.data|)
    ensures Position(states, p) >= 0 && Position(states, |states[k + 1].st.data|) >= 0
    ensures G.VectorLen(Buffer(states), Position(states, p), 0) == Some(|run[k].offsets|)
    ensures var start := Position(states, |states[k + 1].st.data|) + 4;
      && G.Vector(Buffer(states), Position(states, p), 0) == Some(start)
      && (i < |run[k].offsets|
        ==> G.Indirect(Buffer(states), start + 4 * i) == Some(Position(states, run[k].offsets[i])))
  {
    hide *;
    BufferIsLast(run, states, p);
    BufferIsLast(run, states, |states[k + 1].st.data|);
    LeadsIsLast(run, states, p, |states[k + 1].st.data|);
    if i < |run[k].offsets| {
      BufferIsLast(run, states, run[k].offsets[i]);
    }
    CallSplits(run, states, k);
    ListRoundTrip(states[k], run[k].offsets, states[k + 1], run[k + 1..], states[|run|], p, i);
  }

  /** Alignment: in a finished buffer every word of the run is at an index divisible by its width. */
  lemma EveryWordIsAligned(run: seq<Op>, states: seq<Run>, p: Placed)
    requires IsTrace(run, states) && run != [] && run[|run| - 1].FinishOp? && p in states[|run|].log.words
    ensures Position(states, p.handle) >= 0 && IsMultiple(Position(states, p.handle), Width(p.word))
  {
    hide *;
    var op := run[|run| - 1];
    BufferIsLast(run, states, p.handle);
    CallSplits(run, states, |run| - 1);
    FinishedIsAligned(states[|run| - 1], op.root, op.fid, op.sizePrefix, states[|run|], p);
  }

  /** Stability: what was written before a call are the last bytes of the buffer for ever. */
  lemma EveryByteStays(run: seq<Op>, states: seq<Run>, k: nat)
    requires IsTrace(run, states) && k <= |run|
    ensures IsSuffix(states[k].st.data, Buffer(states))
    ensures forall o | o in states[k].log.tables ::
      o in states[|run|].log.tables && states[|run|].log.tables[o] == states[k].log.tables[o]
  {
    hide Good, Step, RunFrom, RunAll, PowerOfTwo, IsTrace, IsSuffix;
    BufferIsLast(run, states, 0);
    TraceIsRun(run, states, k);
    RestOfTrace(run, states, k);
    ReachableIsGood(run[..k]);
    HandlesAreStable(states[k], run[k..]);
  }
}
