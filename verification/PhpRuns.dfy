/**
 Whole runs in Go and in PHP. The same well-bracketed calls leave the two builders with the same
 bytes after every call exactly when every call is safe: PHP accepts the numbers and strings, and
 takes no number for a default that is another one; and an object that ends has a field, its sizes
 fit signed 16-bit words, and no earlier object with the same field offsets has another size.
 */
module PhpRuns {
  import opened Bits
  import opened Codec
  import opened Wrappers
  import opened Layout
  import opened Prepends
  import opened Runs
  import opened Stability
  import opened Invariants
  import opened Reachable
  import opened PhpObjects
  import opened WholeRuns
  import Growth
  import N = PhpNumbers
  import P = PhpLayout

  /** The calls that both builders have, and of which PHP says what they do. */
  predicate InPhp(op: Op) {
    match op
    case VectorOfTablesOp(_) => false
    case SharedStringOp(_) => false
    case ByteVectorOp(_) => false
    case FinishOp(_, _, sizePrefix) => !sizePrefix
    case PrependOp(size, kind, x) => P.Determined(kind, size, x)
    case ScalarSlotOp(_, size, kind, x, d) => P.IsDefault(kind, size, x, d) || P.Determined(kind, size, x)
    case _ => true
  }

  /** With forceDefaults set, the value of a slot is written whatever the default is. */
  predicate InForced(op: Op) {
    InPhp(op) && (op.ScalarSlotOp? ==> P.Determined(op.kind, op.size, op.x))
  }

  /** The PHP builder's operation. */
  function PhpApply(p: P.PhpState, op: Op): (r: Option<P.PhpState>)
    requires if p.forceDefaults then InForced(op) else InPhp(op)
    ensures r.Some? ==> r.value.forceDefaults == p.forceDefaults
  {
    match op
    case StartObjectOp(n) => P.StartObject(p, n)
    case ScalarSlotOp(slot, size, kind, x, d) => P.AddScalarX(p, slot, size, kind, x, d)
    case UOffsetSlotOp(slot, x, d) => P.AddOffsetX(p, slot, x, d)
    case StructSlotOp(slot, x, d) => P.AddStructX(p, slot, x, d)
    case EndObjectOp => P.EndObject(p)
    case PrependOp(size, kind, x) => P.AddScalar(p, size, kind, x)
    case PrependUOffsetOp(off) => P.AddOffset(p, off)
    case PrepOp(align, additional) => Some(P.Prep(p, align, additional))
    case PadOp(n) => Some(p.(st := Place(p.st, Zeros(n))))
    case StartVectorOp(e, n, a) => P.StartVector(p, e, n, a)
    case EndVectorOp(_) => P.EndVector(p)
    case StringOp(str) => P.CreateString(p, str)
    case FinishOp(root, fid, _) => P.Finish(p, root, fid)
  }

  function PhpRun(ops: seq<Op>): (r: Option<P.PhpState>)
    requires forall op | op in ops :: InPhp(op)
    ensures r.Some? ==> !r.value.forceDefaults
    decreases |ops|
  {
    if ops == [] then Some(P.PHP_INITIAL)
    else
      match PhpRun(ops[..|ops| - 1])
      case None => None
      case Some(p) => PhpApply(p, ops[|ops| - 1])
  }

  /** Go's state as PHP has it: a vector is not nested, and nothing is marked finished. */
  function Mirror(s: State, open: Open): State {
    s.(nested := open.InObject?, finished := false)
  }

  predicate Agrees(r: Run, p: P.PhpState) {
    && p.st == Mirror(r.st, r.log.open) && !p.stray && !p.forceDefaults
    && (r.log.open.InVector? ==> p.vectorNumElems == r.log.open.count)
  }

  /** The condition under which PHP does what Go does. */
  ghost predicate Safe(r: Run, op: Op) {
    match op
    case ScalarSlotOp(_, size, kind, x, d) =>
      SameValue(kind, size, x, d) || (!P.IsDefault(kind, size, x, d) && P.Accepted(kind, size, x))
    case PrependOp(size, kind, x) => P.Accepted(kind, size, x)
    case StringOp(str) => P.IsUtf8(str)
    case EndObjectOp =>
      && r.st.vtable != [] && |Trim(r.st.vtable)| < 0x3ffe
      && ObjectOffset(r.st) - r.st.objectEnd < 0x8000 && SizesAgree(r.st, r.log)
    case EndVectorOp(n) => n < 0x1_0000_0000
    case _ => true
  }

  /** Both builders end `op` in the same state, or PHP does not get there. */
  predicate AgreesAfter(p: P.PhpState, op: Op, r1: Run)
    requires InPhp(op) && !p.forceDefaults
  {
    PhpApply(p, op).Some? && Agrees(r1, PhpApply(p, op).value)
  }

  // ---- Single operations -----------------------------------------------------------

  lemma ByteAdds(s: State, b: byte)
    ensures PrependScalar(s, 1, b) == Place(s, [b])
  {
    PowersUsed();
    PrepAligns(s, 1, 0);
    Growth.ByteWord(b);
  }

  lemma {:induction false} BytesAdd(p: P.PhpState, bytes: seq<byte>)
    ensures P.AddBytes(p, bytes) == p.(st := Place(p.st, bytes))
    decreases |bytes|
  {
    if bytes == [] {
    } else {
      var last := |bytes| - 1;
      ByteAdds(p.st, bytes[last]);
      BytesAdd(p.(st := Place(p.st, [bytes[last]])), bytes[..last]);
      assert bytes[..last] + ([bytes[last]] + p.st.data) == bytes + p.st.data;
    }
  }

  lemma ZerosTrade(n: nat, rest: seq<byte>)
    ensures [0] + (Zeros(n) + rest) == Zeros(n) + ([0] + rest)
  {
    assert [0] + Zeros(n) == Zeros(n) + [0];
    Reassociate([0], Zeros(n), rest);
    Reassociate(Zeros(n), [0], rest);
  }

  lemma StartsString(p: P.PhpState, n: nat)
    requires !p.st.nested
    ensures var s1 := Place(p.st, [0]);
      P.StartVector(P.AddByte(p, 0), 1, n, 1) == Some(p.(st := Layout.Prep(s1, 4, n), vectorNumElems := n))
  {
    var s1 := Place(p.st, [0]);
    ByteAdds(p.st, 0);
    PowersUsed();
    Growth.SecondPrep(s1, n, 1);
  }

  /** The terminator before or after the padding: the same bytes. */
  lemma TerminatorTrades(s: State, n: nat)
    ensures Layout.Prep(Place(s, [0]), 4, n) == Place(Layout.Prep(s, 4, n + 1), [0])
  {
    hide AlignSize, Zeros;
    ZerosTrade(PadFor(s, 4, n + 1), s.data);
  }

  lemma PrepMirrors(s: State, n: nat, nested: bool, finished: bool)
    ensures Layout.Prep(s.(nested := nested, finished := finished), 4, n) ==
      Layout.Prep(s, 4, n).(nested := nested, finished := finished)
  {
  }

  lemma StringsAgree(s: State, p: P.PhpState, str: seq<byte>)
    requires !s.nested && p.st == s.(finished := false) && |str| < 0x1_0000_0000 && P.IsUtf8(str)
    ensures Layout.CreateString(s, str).Some?
    ensures P.CreateString(p, str) ==
      Some(p.(st := Layout.CreateString(s, str).value.(finished := false), vectorNumElems := |str|))
  {
    hide LE, Layout.Prep, P.StartVector, P.AddByte, P.IsUtf8;
    StartsString(p, |str|);
    TerminatorTrades(p.st, |str|);
    PrepMirrors(s, |str| + 1, false, false);
    PrepMirrors(s, |str| + 1, true, s.finished);
  }

  lemma OffsetsAgree(s: State, s1: State, p: P.PhpState, off: nat)
    requires PrependUOffset(s, off) == Some(s1) && |s1.data| < 0x8000_0000
    requires p.st == s.(nested := p.st.nested, finished := false)
    ensures P.AddOffset(p, off) == Some(p.(st := s1.(nested := p.st.nested, finished := false)))
  {
    hide LE, Zeros, AlignSize;
  }

  lemma FinishPlainAgrees(s: State, s1: State, p: P.PhpState, root: nat)
    requires Layout.FinishPlain(s, root, false) == Some(s1) && |s1.data| < 0x8000_0000
    requires p.st == s.(finished := false)
    ensures P.FinishPlain(p, root) == Some(p.(st := s1.(finished := false)))
  {
    hide LE, Zeros, AlignSize, P.AddOffset;
    var s0 := Layout.Prep(s, s.minalign, 4);
    OffsetsAgree(s0, PrependUOffset(s0, root).value, P.Prep(p, p.st.minalign, 4), root);
  }

  lemma FinishAgrees(s: State, s1: State, p: P.PhpState, root: nat, fid: Option<seq<byte>>)
    requires Layout.Finish(s, root, fid, false) == Some(s1) && |s1.data| < 0x8000_0000
    requires !s.nested && p.st == s.(finished := false)
    ensures P.Finish(p, root, fid) == Some(p.(st := s1.(finished := false)))
  {
    hide LE, Zeros, AlignSize, Layout.FinishPlain, P.FinishPlain, P.AddBytes;
    if fid.None? {
      FinishPlainAgrees(s, s1, p, root);
    } else {
      var p0 := P.Prep(p, p.st.minalign, 8);
      var s0 := Layout.Prep(s, s.minalign, 8);
      BytesAdd(p0, fid.value);
      FinishPlainAgrees(Place(s0, fid.value), s1, p0.(st := Place(p0.st, fid.value)), root);
    }
  }

  // ---- Steps -------------------------------------------------------------------------

  lemma StartStepAgrees(r: Run, p: P.PhpState, op: Op, r1: Run)
    requires Agrees(r, p) && Step(r, op) == Some(r1) && OpenOk(r.st, r.log)
    requires op.StartObjectOp? || op.StartVectorOp?
    ensures AgreesAfter(p, op, r1)
  {
    hide LE, Zeros, AlignSize, FieldsOk, FlatOk, RoomAfter, Step, WriteVtable, PowerOfTwo;
    StepParts(r, op);
  }

  lemma WriteStepAgrees(r: Run, p: P.PhpState, op: Op, r1: Run)
    requires Agrees(r, p) && Step(r, op) == Some(r1) && |r1.st.data| < 0x8000_0000 && InPhp(op)
    requires op.PrependOp? || op.PrependUOffsetOp? || op.PrepOp? || op.PadOp?
    ensures AgreesAfter(p, op, r1) <==> Safe(r, op)
  {
    hide LE, Zeros, AlignSize, OpenOk, RoomAfter, PrependUOffset, P.AddOffset, Step, WriteVtable, P.Slot, P.Accepted,
      P.Determined;
    StepParts(r, op);
    if op.PrependUOffsetOp? {
      OffsetsAgree(r.st, r1.st, p, op.off);
    }
  }

  /** What a scalar slot does, without the builders' own parts. */
  lemma ScalarSlotSteps(r: Run, op: Op, r1: Run)
    requires Step(r, op) == Some(r1) && op.ScalarSlotOp?
    ensures r.log.open.InObject? && r1.log.open.InObject?
    ensures SameValue(op.kind, op.size, op.x, op.d) ==> r1.st == r.st
    ensures !SameValue(op.kind, op.size, op.x, op.d) ==>
      op.slot < |r.st.vtable| && Slot(PrependScalar(r.st, op.size, op.x), op.slot) == Some(r1.st)
  {
    hide LE, Zeros, AlignSize, SameValue, RoomAfter, InType, Width;
  }

  lemma ScalarMirrors(s: State, size: pos, x: int, nested: bool, finished: bool)
    ensures PrependScalar(s.(nested := nested, finished := finished), size, x)
      == PrependScalar(s, size, x).(nested := nested, finished := finished)
    ensures PrependScalar(s, size, x).nested == s.nested && PrependScalar(s, size, x).finished == s.finished
    ensures PrependScalar(s, size, x).vtable == s.vtable
  {
    hide LE, Zeros, AlignSize;
  }

  lemma SameIsDefault(kind: Kind, size: nat, x: int, d: int)
    requires SameValue(kind, size, x, d)
    ensures P.IsDefault(kind, size, x, d)
  {
  }

  lemma ScalarSlotAgrees(r: Run, p: P.PhpState, op: Op, r1: Run)
    requires Agrees(r, p) && Step(r, op) == Some(r1) && op.ScalarSlotOp? && InPhp(op)
    ensures AgreesAfter(p, op, r1) <==> Safe(r, op)
  {
    hide Step, PrependScalar, SameValue, P.Accepted, P.IsDefault, P.Determined;
    ScalarSlotSteps(r, op, r1);
    ScalarMirrors(r.st, op.size, op.x, true, false);
    if SameValue(op.kind, op.size, op.x, op.d) {
      SameIsDefault(op.kind, op.size, op.x, op.d);
    } else {
      ScalarIsLonger(r.st, op.size, op.x);
    }
  }

  lemma ScalarIsLonger(s: State, size: pos, x: int)
    ensures |PrependScalar(s, size, x).data| > |s.data|
  {
    hide AlignSize, Zeros;
  }

  lemma UOffsetSlotAgrees(r: Run, p: P.PhpState, op: Op, r1: Run)
    requires Agrees(r, p) && Step(r, op) == Some(r1) && |r1.st.data| < 0x8000_0000 && op.UOffsetSlotOp?
    ensures AgreesAfter(p, op, r1)
  {
    hide LE, Zeros, AlignSize, RoomAfter, PrependUOffset, P.AddOffset, Step, WriteVtable, PowerOfTwo;
    StepParts(r, op);
    if op.off != op.dflt {
      OffsetsAgree(r.st, PrependUOffset(r.st, op.off).value, p, op.off);
    }
  }

  lemma StructSlotAgrees(r: Run, p: P.PhpState, op: Op, r1: Run)
    requires Agrees(r, p) && Step(r, op) == Some(r1) && op.StructSlotOp?
    ensures AgreesAfter(p, op, r1)
  {
    hide LE, Zeros, AlignSize, RoomAfter, Step, WriteVtable, PowerOfTwo;
    StepParts(r, op);
  }

  lemma FinishStepAgrees(r: Run, p: P.PhpState, op: Op, r1: Run)
    requires Agrees(r, p) && Step(r, op) == Some(r1) && |r1.st.data| < 0x8000_0000
    requires op.FinishOp? && InPhp(op) && OpenOk(r.st, r.log)
    ensures AgreesAfter(p, op, r1)
  {
    hide RoomAfter, Layout.FinishPlain, P.Finish, Step, WriteVtable, FlatOk, FieldsOk, Apply, LogOp;
    StepParts(r, op);
    FinishSteps(r, op, r1);
    FinishAgrees(r.st, r1.st, p, op.root, op.fid);
  }

  lemma FinishSteps(r: Run, op: Op, r1: Run)
    requires Step(r, op) == Some(r1) && op.FinishOp?
    ensures Layout.Finish(r.st, op.root, op.fid, op.sizePrefix) == Some(r1.st) && r1.log.open == r.log.open
    ensures !r.st.nested && r1.st.nested == r.st.nested
  {
  }

  lemma VectorStepAgrees(r: Run, p: P.PhpState, op: Op, r1: Run)
    requires Agrees(r, p) && Step(r, op) == Some(r1) && OpenOk(r.st, r.log)
    requires op.EndVectorOp?
    ensures AgreesAfter(p, op, r1) <==> Safe(r, op)
  {
    hide LE, RoomAfter, Step, FieldsOk, FlatOk;
    StepParts(r, op);
  }

  lemma StringStepAgrees(r: Run, p: P.PhpState, op: Op, r1: Run)
    requires Agrees(r, p) && Step(r, op) == Some(r1) && OpenOk(r.st, r.log) && |r1.st.data| < 0x8000_0000
    requires op.StringOp?
    ensures AgreesAfter(p, op, r1) <==> Safe(r, op)
  {
    hide LE, Zeros, AlignSize, RoomAfter, Step, FieldsOk, FlatOk, Layout.CreateString, P.CreateString, P.IsUtf8;
    StepParts(r, op);
    StringSteps(r, op, r1);
    if P.IsUtf8(op.str) {
      StringsAgree(r.st, p, op.str);
    } else {
      NotUtf8(p, op.str);
    }
  }

  lemma NotUtf8(p: P.PhpState, str: seq<byte>)
    requires !P.IsUtf8(str)
    ensures P.CreateString(p, str) == None
  {
  }

  lemma StringSteps(r: Run, op: Op, r1: Run)
    requires Step(r, op) == Some(r1) && op.StringOp? && OpenOk(r.st, r.log)
    ensures Layout.CreateString(r.st, op.str) == Some(r1.st) && r1.log.open == Closed && r.log.open == Closed
    ensures !r.st.nested && !r1.st.nested && |op.str| < |r1.st.data|
  {
  }

  /** The slots that PHP leaves out because it takes the value for the default, which is another number. */
  predicate NearDefault(x: int, d: int) {
    || (x >= 0x7fff_ffff_ffff_fe00 && 0x8000_0000_0000_0000 <= d <= 0x8000_0000_0000_0400)
    || (x <= -0x7fff_ffff_ffff_fe00 && d == -0x8000_0000_0000_0000)
  }

  /** For scalars, the condition in plain numbers: only those of eight bytes can be unsafe. */
  lemma SafeScalarMeans(r: Run, op: Op)
    requires (op.PrependOp? || op.ScalarSlotOp?) && WellTyped(op) && InPhp(op)
    ensures op.PrependOp? ==> (Safe(r, op) <==> op.size < 8 || op.kind.Floating? || op.x < 0x8000_0000_0000_0000)
    ensures op.ScalarSlotOp? ==>
      (Safe(r, op) <==>
        || op.size < 8 || op.kind.Floating? || op.x == op.d
        || (op.x < 0x8000_0000_0000_0000 && !NearDefault(op.x, op.d)))
  {
    hide P.Accepted, P.IsDefault, P.Determined;
    Widths();
    P.AcceptedMeans(op.kind, op.size, op.x);
    if op.ScalarSlotOp? {
      if op.kind.Floating? {
        FloatsAreAccepted(op.size, op.x, op.d);
      } else if op.x < 0x8000_0000_0000_0000 {
        P.IsDefaultMeans(op.kind, op.size, op.x, op.d);
      }
    }
  }

  lemma FloatsAreAccepted(size: nat, x: int, d: int)
    ensures P.Accepted(Floating, size, x) && P.Determined(Floating, size, x)
    ensures P.IsDefault(Floating, size, x, d) <==> SameValue(Floating, size, x, d)
  {
  }

  // ---- EndObject -----------------------------------------------------------------------

  lemma MirrorEnds(s: State, open: Open)
    requires open.InObject? && s.nested
    ensures var m := Mirror(s, open);
      && ObjectOffset(m) == ObjectOffset(s) && NewVtableAt(m) == NewVtableAt(s) && OwnVtable(m) == OwnVtable(s)
      && WriteVtable(m).(nested := false) == Mirror(WriteVtable(s).(nested := false), Closed)
  {
    hide LE, Zeros, AlignSize, Trim, FindVtable, VtableBytes, WriteVtable;
    var m := Mirror(s, open);
    EndObjectPrepends(s);
    EndObjectPrepends(m);
    assert BeginVtable(m).data == BeginVtable(s).data;
    assert SharedVtable(m) == SharedVtable(s);
  }

  lemma PrefixLength(s: State)
    ensures ObjectOffset(s) <= |ObjectPrefix(s) + s.data|
  {
  }

  lemma ObjectSteps(r: Run, r1: Run)
    requires Step(r, EndObjectOp) == Some(r1)
    ensures r.log.open.InObject? && r.st.nested && ObjectOffset(r.st) - r.st.objectEnd < 0x1_0000
    ensures r1.st == WriteVtable(r.st).(nested := false) && r1.log.open == Closed
    ensures ObjectOffset(r.st) <= |r1.st.data|
  {
    hide WriteVtable, ObjectOffset, VtableOf, SharedVtable, Trim;
    EndObjectPrepends(r.st);
    PrefixLength(r.st);
  }

  lemma MirrorEndable(r: Run)
    requires Good(r) && r.log.open.InObject? && ObjectOffset(r.st) - r.st.objectEnd < 0x1_0000
    requires ObjectOffset(r.st) < 0x8000_0000
    ensures Endable(Mirror(r.st, r.log.open), r.log)
  {
    hide PlacedOk, VtableOk, TablesOk, VectorsOk, BlobsOk, SharedOk, Trim;
  }

  lemma ObjectStepAgrees(r: Run, p: P.PhpState, r1: Run)
    requires Good(r) && Agrees(r, p) && Step(r, EndObjectOp) == Some(r1) && |r1.st.data| < 0x8000_0000
    ensures AgreesAfter(p, EndObjectOp, r1) <==> Safe(r, EndObjectOp)
  {
    hide Good, Step, WriteVtable, ObjectOffset, NewVtableAt, Trim, OwnVtable, Endable, P.EndState;
    ObjectSteps(r, r1);
    MirrorEndable(r);
    MirrorEnds(r.st, r.log.open);
    EndingsAgree(Mirror(r.st, r.log.open), r.log);
  }

  /** One call: agreement before gives agreement after exactly when the call is safe. */
  lemma StepAgrees(r: Run, p: P.PhpState, op: Op, r1: Run)
    requires Good(r) && Agrees(r, p) && Step(r, op) == Some(r1) && InPhp(op)
    requires |r1.st.data| < 0x8000_0000
    ensures AgreesAfter(p, op, r1) <==> Safe(r, op)
  {
    assert OpenOk(r.st, r.log);
    hide Good, Step, Agrees, AgreesAfter, OpenOk, NewVtableAt;
    match op
    case EndObjectOp => ObjectStepAgrees(r, p, r1);
    case EndVectorOp(_) => VectorStepAgrees(r, p, op, r1);
    case FinishOp(_, _, _) => FinishStepAgrees(r, p, op, r1);
    case StringOp(_) => StringStepAgrees(r, p, op, r1);
    case ScalarSlotOp(_, _, _, _, _) => ScalarSlotAgrees(r, p, op, r1);
    case UOffsetSlotOp(_, _, _) => UOffsetSlotAgrees(r, p, op, r1);
    case StructSlotOp(_, _, _) => StructSlotAgrees(r, p, op, r1);
    case StartObjectOp(_) => StartStepAgrees(r, p, op, r1);
    case StartVectorOp(_, _, _) => StartStepAgrees(r, p, op, r1);
    case _ => WriteStepAgrees(r, p, op, r1);
  }

  // ---- Whole runs --------------------------------------------------------------------

  /** The two builders are in the same state after every call. */
  ghost predicate AgreeThroughout(ops: seq<Op>)
    requires RunAll(ops).Some? && forall op | op in ops :: InPhp(op)
    decreases |ops|
  {
    && PhpRun(ops).Some? && Agrees(RunAll(ops).value, PhpRun(ops).value)
    && (ops != [] ==> AgreeThroughout(ops[..|ops| - 1]))
  }

  /** Every call of the run is safe. */
  ghost predicate AllSafe(ops: seq<Op>)
    requires RunAll(ops).Some?
    decreases |ops|
  {
    ops == [] || (AllSafe(ops[..|ops| - 1]) && Safe(RunAll(ops[..|ops| - 1]).value, ops[|ops| - 1]))
  }

  /** The builders agree after every call of a run exactly when every call is safe. */
  lemma {:induction false} BuildersAgree(ops: seq<Op>)
    requires RunAll(ops).Some? && |RunAll(ops).value.st.data| < 0x8000_0000
    requires forall op | op in ops :: InPhp(op)
    ensures AgreeThroughout(ops) <==> AllSafe(ops)
    decreases |ops|
  {
    hide Good, Step, Safe, Agrees, Keyed, PhpApply;
    if ops == [] {
      StartAgrees();
    } else {
      var before, op := ops[..|ops| - 1], ops[|ops| - 1];
      var r := RunAll(before).value;
      ReachableIsGood(before);
      GoodIsKeyed(r);
      StepIsLater(r, op);
      BuildersAgree(before);
      if AgreeThroughout(before) {
        StepAgrees(r, PhpRun(before).value, op, RunAll(ops).value);
      }
    }
  }

  lemma StartAgrees()
    ensures Agrees(START, P.PHP_INITIAL)
  {
  }

  /** The finished bytes are identical. */
  lemma FinishedBytesAgree(ops: seq<Op>)
    requires RunAll(ops).Some? && |RunAll(ops).value.st.data| < 0x8000_0000
    requires forall op | op in ops :: InPhp(op)
    requires AllSafe(ops)
    ensures PhpRun(ops).Some? && PhpRun(ops).value.st.data == RunAll(ops).value.st.data
    ensures PhpRun(ops).value.st.minalign == RunAll(ops).value.st.minalign
  {
    BuildersAgree(ops);
  }

  // ---- A run on which they differ --------------------------------------------------------

  /**
   Two tables of one schema type, each with its one int field set, built one after the other. The
   second starts behind the vtable of the first, at a place that needs two bytes of padding, which
   count into its size: the ordinary case that PHP does not share a vtable where Go does.
   */
  const COLLIDING := [
    StartObjectOp(1), ScalarSlotOp(0, 4, Signed, 5, 0), EndObjectOp,
    StartObjectOp(1), ScalarSlotOp(0, 4, Signed, 7, 0), EndObjectOp]

  lemma EndStep(r: Run)
    requires r.log.open.InObject? && r.st.nested && ObjectOffset(r.st) - r.st.objectEnd < 0x1_0000
    ensures Step(r, EndObjectOp).Some?
    ensures var r1 := Step(r, EndObjectOp).value;
      r1.st == WriteVtable(r.st).(nested := false) && r1.log == EndedTable(r.log, r.st).(room := r1.log.room)
  {
    hide WriteVtable, EndedTable, ObjectOffset, RoomAfter;
  }

  /** An object that has got its one field, an int at the front, and is about to end. */
  predicate IntObject(r: Run, size: nat, start: nat) {
    && |r.st.data| == size && size % 4 == 0 && 0 < size < 0x1000 && start <= size
    && r.st.vtable == [size] && r.st.objectEnd == start && r.st.nested && r.log.open.InObject?
  }

  lemma IntObjectEnds(r: Run, size: nat, start: nat)
    requires IntObject(r, size, start)
    ensures ObjectOffset(r.st) == size + 4
    ensures Trim(r.st.vtable) == [size] && OwnVtable(r.st) == Vtable(size + 4 - start, [4])
    ensures Step(r, EndObjectOp).Some?
    ensures Step(r, EndObjectOp).value.st.data == ObjectPrefix(r.st) + r.st.data
    ensures |ObjectPrefix(r.st)| == if SharedVtable(r.st) == 0 then 10 else 4
  {
    hide WriteVtable, FindVtable, Step;
    PowersUsed();
    AlignSizeAligns(size, 4);
    assert PadFor(r.st, 4, 0) == 0;
    assert Entries([size], size + 4) == [4];
    EndObjectPrepends(r.st);
    EndStep(r);
  }

  /** From a closed builder to an object with its int field, at the next multiple of four. */
  lemma IntObjectStarts(r: Run, x: int, size: nat)
    requires !r.st.nested && r.log.open == Closed && x != 0 && InType(Signed, 4, x)
    requires |r.st.data| + 4 <= size < |r.st.data| + 8 && size % 4 == 0 && size < 0x1000
    ensures Step(r, StartObjectOp(1)).Some?
    ensures Step(Step(r, StartObjectOp(1)).value, ScalarSlotOp(0, 4, Signed, x, 0)).Some?
    ensures var r2 := Step(Step(r, StartObjectOp(1)).value, ScalarSlotOp(0, 4, Signed, x, 0)).value;
      IntObject(r2, size, |r.st.data|) && r2.st.vtables == r.st.vtables && r2.log.vtables == r.log.vtables
  {
    hide AlignSize, LE, Zeros, RoomAfter;
    var s1 := r.st.(nested := true, vtable := ZeroSlots(1), objectEnd := |r.st.data|);
    PowersUsed();
    PrepAligns(s1, 4, 0);
    Widths();
    assert |PrependScalar(s1, 4, x).data| == size;
    assert ZeroSlots(1)[0 := size] == [size];
  }

  /** The first object gets the first vtable. */
  lemma FirstIntObject(r: Run)
    requires IntObject(r, 4, 0) && r.st.vtables == []
    ensures Step(r, EndObjectOp).Some?
    ensures var r1 := Step(r, EndObjectOp).value;
      && |r1.st.data| == 14 && r1.st.vtables == [14] && !r1.st.nested && r1.log.open == Closed
      && 14 in r1.log.vtables && r1.log.vtables[14] == Vtable(8, [4])
  {
    IntObjectEnds(r, 4, 0);
    assert SharedVtable(r.st) == 0;
    EndStep(r);
    EndObjectPrepends(r.st);
    hide WriteVtable, ObjectPrefix, Step, FindVtable, Trim, VtableWords, Entries;
  }

  /** The second has the first one's entries, and two bytes more. */
  lemma SecondIsUnsafe(r: Run)
    requires IntObject(r, 20, 14) && r.st.vtables == [14] && 14 in r.log.vtables && r.log.vtables[14] == Vtable(8, [4])
    ensures Step(r, EndObjectOp).Some? && |Step(r, EndObjectOp).value.st.data| < 0x8000_0000
    ensures !Safe(r, EndObjectOp)
  {
    hide Step, ObjectPrefix, SharedVtable, OwnVtable, ObjectOffset, Trim;
    IntObjectEnds(r, 20, 14);
    assert r.log.vtables[14].objectSize != OwnVtable(r.st).objectSize;
  }

  /** Go shares the vtable of the first object; PHP does not, since the sizes differ. */
  lemma ObjectsCollide()
    ensures RunAll(COLLIDING).Some? && !AllSafe(COLLIDING) && !AgreeThroughout(COLLIDING)
  {
    hide Step, Safe, AgreeThroughout, IntObject;
    var ops := COLLIDING;
    Widths();
    assert RunAll(ops[..0]) == Some(START);
    IntObjectStarts(START, 5, 4);
    var r1 := NextState(ops, 0, START);
    var r2 := NextState(ops, 1, r1);
    FirstIntObject(r2);
    var r3 := NextState(ops, 2, r2);
    IntObjectStarts(r3, 7, 20);
    var r4 := NextState(ops, 3, r3);
    var r5 := NextState(ops, 4, r4);
    SecondIsUnsafe(r5);
    var r6 := NextState(ops, 5, r5);
    assert ops[..6] == ops && ops[..|ops| - 1] == ops[..5];
    assert !AllSafe(ops);
    BuildersAgree(ops);
  }

  /** A run that sets one ulong field. */
  function UlongRun(x: int, d: int): seq<Op> {
    [StartObjectOp(1), ScalarSlotOp(0, 8, Unsigned, x, d)]
  }

  lemma UlongRuns(x: int, d: int) returns (r1: Run)
    requires InType(Unsigned, 8, x) && InType(Unsigned, 8, d) && x != d && InPhp(ScalarSlotOp(0, 8, Unsigned, x, d))
    ensures UlongRun(x, d)[..2] == UlongRun(x, d) && UlongRun(x, d)[..1] == [StartObjectOp(1)]
    ensures RunAll([StartObjectOp(1)]).Some? && RunAll(UlongRun(x, d)) == Some(r1) && r1.st.data != []
    ensures forall op | op in UlongRun(x, d) :: InPhp(op)
    ensures PhpRun([StartObjectOp(1)]) == P.StartObject(P.PHP_INITIAL, 1)
  {
    hide LE, Zeros, AlignSize, RoomAfter, Wrote, P.IsDefault, P.Determined, InType;
    var ops := UlongRun(x, d);
    assert ops[..1] == [StartObjectOp(1)] && ops[..1][..0] == [] && ops[..2] == ops;
    assert RunAll(ops[..0]) == Some(START);
    var r := NextState(ops, 0, START);
    r1 := NextState(ops, 1, r);
    ScalarIsLonger(r.st, 8, x);
  }

  /** A number above 2^63 in a ulong field: PHP has it as a double, which putUlong refuses. */
  lemma BigNumberIsRefused()
    ensures var ops := UlongRun(0xffff_ffff_ffff_f800, 0);
      && RunAll(ops).Some? && (forall op | op in ops :: InPhp(op))
      && !AllSafe(ops) && PhpRun(ops) == None
  {
    hide P.Accepted, P.Determined, N.Nearest, N.AtMost;
    Widths();
    P.AcceptedMeans(Unsigned, 8, 0xffff_ffff_ffff_f800);
    N.NearestAbove(0xffff_ffff_ffff_f800);
    N.NearestOfTop();
    var r1 := UlongRuns(0xffff_ffff_ffff_f800, 0);
  }

  /** The greatest integer in a ulong field whose default is 2^63: as doubles they are equal, and PHP leaves it out. */
  lemma NearDefaultIsSkipped()
    ensures var ops := UlongRun(0x7fff_ffff_ffff_ffff, 0x8000_0000_0000_0000);
      && RunAll(ops).Some? && RunAll(ops).value.st.data != [] && (forall op | op in ops :: InPhp(op))
      && !AllSafe(ops) && PhpRun(ops).Some? && PhpRun(ops).value.st.data == []
  {
    hide P.Accepted, P.IsDefault, P.Determined;
    Widths();
    P.IsDefaultMeans(Unsigned, 8, 0x7fff_ffff_ffff_ffff, 0x8000_0000_0000_0000);
    var r1 := UlongRuns(0x7fff_ffff_ffff_ffff, 0x8000_0000_0000_0000);
  }

  /** createString refuses bytes that are not UTF-8, which CreateString in Go takes. */
  lemma RawBytesAreRefused()
    ensures RunAll([StringOp([0xff])]).Some? && !AllSafe([StringOp([0xff])]) && PhpRun([StringOp([0xff])]) == None
  {
    hide LE, Zeros, AlignSize, RoomAfter;
    var ops := [StringOp([0xff])];
    assert ops[..0] == [];
    assert !P.IsUtf8([0xff]);
    assert RunAll(ops) == Step(START, ops[0]);
  }

  lemma NextState(ops: seq<Op>, i: nat, r: Run) returns (r1: Run)
    requires i < |ops| && RunAll(ops[..i]) == Some(r) && Step(r, ops[i]).Some?
    ensures r1 == Step(r, ops[i]).value && RunAll(ops[..i + 1]) == Some(r1)
  {
    hide Step;
    r1 := Step(r, ops[i]).value;
    assert ops[..i + 1] == ops[..i] + [ops[i]];
    RunExtends(ops[..i], r, ops[i]);
  }
}
