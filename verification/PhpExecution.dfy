/**
 Whole runs of the PHP class, and of both classes side by side: on a safe run the bytes that the
 two builders hand out are identical, whatever their initial sizes.
 */
module PhpExecution {
  import opened Bits
  import opened Codec
  import opened Wrappers
  import opened Layout
  import opened Runs
  import opened Invariants
  import opened Stability
  import opened Reachable
  import opened GoBuilder
  import opened GoRun
  import opened PhpBuilder
  import opened PhpRuns
  import P = PhpLayout

  /** What the class itself needs of a call. */
  ghost predicate PhpCallable(b: FlatbufferBuilder, op: Op)
    reads b, b.bb
    requires b.Valid()
  {
    match op
    case PadOp(n) => n <= b.space
    case EndVectorOp(_) => 4 <= b.space
    case _ => true
  }

  /** Free bytes that a call leaves: one less than in Go, where the growth test is not strict. */
  predicate PhpRoomy(op: Op, space: nat) {
    match op
    case PrepOp(align, additional) => space >= align + additional
    case StartVectorOp(e, n, _) => space >= e * n + 4
    case _ => true
  }

  /** An upper bound on what a call writes and reserves. */
  function PhpNeed(s: State, op: Op): nat {
    match op
    case StringOp(str) => 10 + |str|
    case _ => Need(s, op)
  }

  method CallObject(b: FlatbufferBuilder, op: Op) returns (r: Outcome)
    requires b.Valid() && WellTyped(op) && (if b.forceDefaults then InForced(op) else InPhp(op))
    requires op.StartObjectOp? || op.ScalarSlotOp? || op.UOffsetSlotOp? || op.StructSlotOp? || op.EndObjectOp?
    modifies b, b.bb
    ensures (b.bb == old(b.bb) || fresh(b.bb)) && b.bb.Length >= old(b.bb.Length)
    ensures r.Pass? ==> b.Valid() && PhpApply(old(b.Written()), op) == Some(b.Written())
    ensures r == Fail(Misuse) ==> PhpApply(old(b.Written()), op) == None
    ensures r == Fail(TooLarge) ==> b.Valid() && |b.Written().st.data| + PhpNeed(old(b.Written().st), op) > 0x4000_0000
  {
    Preserved();
    match op
    case StartObjectOp(n) => r := b.StartObject(n);
    case ScalarSlotOp(slot, size, kind, x, d) => r := b.AddScalarX(slot, size, kind, x, d);
    case UOffsetSlotOp(slot, x, d) => r := b.AddOffsetX(slot, x, d);
    case StructSlotOp(slot, x, d) => r := b.AddStructX(slot, x, d);
    case EndObjectOp => var n; r, n := b.EndObject();
  }

  lemma Preserved()
    ensures PowerOfTwo(1) && PowerOfTwo(2) && PowerOfTwo(4) && PowerOfTwo(8)
  {
    SizesArePowers(1);
    SizesArePowers(2);
    SizesArePowers(4);
    SizesArePowers(8);
  }

  method CallWrite(b: FlatbufferBuilder, op: Op) returns (r: Outcome)
    requires b.Valid() && WellTyped(op) && (if b.forceDefaults then InForced(op) else InPhp(op)) && PhpCallable(b, op)
    requires op.PrependOp? || op.PrependUOffsetOp? || op.PrepOp? || op.PadOp? || op.FinishOp?
    modifies b, b.bb
    ensures (b.bb == old(b.bb) || fresh(b.bb)) && b.bb.Length >= old(b.bb.Length)
    ensures r.Pass? ==> b.Valid() && PhpApply(old(b.Written()), op) == Some(b.Written()) && PhpRoomy(op, b.space)
    ensures r == Fail(Misuse) ==> PhpApply(old(b.Written()), op) == None
    ensures r == Fail(TooLarge) ==> b.Valid() && |b.Written().st.data| + PhpNeed(old(b.Written().st), op) > 0x4000_0000
  {
    Preserved();
    match op
    case PrependOp(size, kind, x) => r := b.AddScalar(size, kind, x);
    case PrependUOffsetOp(off) => r := b.AddOffset(off);
    case PrepOp(align, additional) => r := b.Prep(align, additional);
    case PadOp(n) => b.Pad(n); r := Pass;
    case FinishOp(root, fid, sizePrefix) => r := b.Finish(root, fid);
  }

  method CallVector(b: FlatbufferBuilder, op: Op) returns (r: Outcome)
    requires b.Valid() && WellTyped(op) && (if b.forceDefaults then InForced(op) else InPhp(op)) && PhpCallable(b, op)
    requires op.StartVectorOp? || op.EndVectorOp? || op.StringOp?
    modifies b, b.bb
    ensures (b.bb == old(b.bb) || fresh(b.bb)) && b.bb.Length >= old(b.bb.Length)
    ensures r.Pass? ==> b.Valid() && PhpApply(old(b.Written()), op) == Some(b.Written()) && PhpRoomy(op, b.space)
    ensures r == Fail(Misuse) ==> PhpApply(old(b.Written()), op) == None
    ensures r == Fail(TooLarge) ==> b.Valid() && |b.Written().st.data| + PhpNeed(old(b.Written().st), op) > 0x4000_0000
  {
    var n;
    match op
    case StartVectorOp(e, count, alignment) => r := b.StartVector(e, count, alignment);
    case EndVectorOp(count) => r, n := b.EndVector();
    case StringOp(str) => r, n := b.CreateString(str);
  }

  method PhpCall(b: FlatbufferBuilder, op: Op) returns (r: Outcome)
    requires b.Valid() && WellTyped(op) && (if b.forceDefaults then InForced(op) else InPhp(op)) && PhpCallable(b, op)
    modifies b, b.bb
    ensures (b.bb == old(b.bb) || fresh(b.bb)) && b.bb.Length >= old(b.bb.Length)
    ensures r.Pass? ==> b.Valid() && PhpApply(old(b.Written()), op) == Some(b.Written()) && PhpRoomy(op, b.space)
    ensures r == Fail(Misuse) ==> PhpApply(old(b.Written()), op) == None
    ensures r == Fail(TooLarge) ==> b.Valid() && |b.Written().st.data| + PhpNeed(old(b.Written().st), op) > 0x4000_0000
  {
    hide PhpApply, PhpNeed, Growth.Registered;
    if op.StartObjectOp? || op.ScalarSlotOp? || op.UOffsetSlotOp? || op.StructSlotOp? || op.EndObjectOp? {
      r := CallObject(b, op);
    } else if op.PrependOp? || op.PrependUOffsetOp? || op.PrepOp? || op.PadOp? || op.FinishOp? {
      r := CallWrite(b, op);
    } else {
      r := CallVector(b, op);
    }
  }

  /** Padding takes less than all of the room that the last alignment left. */
  ghost predicate PadsFit(ops: seq<Op>)
    requires RunAll(ops).Some?
    decreases |ops|
  {
    ops == [] || (PadsFit(ops[..|ops| - 1]) && PadFits(RunAll(ops[..|ops| - 1]).value, ops[|ops| - 1]))
  }

  predicate PadFits(r: Run, op: Op) {
    op.PadOp? ==> op.n == 0 || op.n < r.log.room
  }

  lemma BracketedIsPhpCallable(b: FlatbufferBuilder, run: Run, op: Op)
    requires b.Valid() && b.space + 1 >= run.log.room && PadFits(run, op)
    requires Bracketed(run, op) && OpenOk(run.st, run.log)
    ensures PhpCallable(b, op)
  {
    hide FieldsOk, FlatOk, Growth.Registered, PowerOfTwo;
  }

  lemma RoomFits(room: nat, s: State, s1: State, op: Op, space: nat)
    requires PhpRoomy(op, space) && space + 1 + |s1.data| >= room + |s.data| && |s1.data| >= |s.data|
    ensures space + 1 >= RoomAfter(room, s, s1, op)
  {
  }

  /** A prefix of a run that is safe throughout is one. */
  lemma {:induction false} SafePrefix(ops: seq<Op>, i: nat)
    requires RunAll(ops).Some? && AllSafe(ops) && PadsFit(ops) && i < |ops|
    ensures RunAll(ops[..i]).Some? && RunAll(ops[..i + 1]).Some?
    ensures AllSafe(ops[..i]) && AllSafe(ops[..i + 1]) && PadFits(RunAll(ops[..i]).value, ops[i])
    ensures Step(RunAll(ops[..i]).value, ops[i]) == RunAll(ops[..i + 1])
    decreases |ops|
  {
    hide Step, Safe, PadFits;
    NextRun(ops, i);
    if i == |ops| - 1 {
      assert ops[..i + 1] == ops;
    } else {
      var init := ops[..|ops| - 1];
      PrefixRuns(ops, |ops| - 1);
      SafePrefix(init, i);
      assert init[..i] == ops[..i] && init[..i + 1] == ops[..i + 1];
    }
  }

  /** A prefix is no longer than the run. */
  lemma {:induction false} PrefixIsShort(ops: seq<Op>, i: nat)
    requires RunAll(ops).Some? && i <= |ops|
    ensures RunAll(ops[..i]).Some? && |RunAll(ops[..i]).value.st.data| <= |RunAll(ops).value.st.data|
    decreases |ops|
  {
    hide Step, Good, Keyed;
    PrefixRuns(ops, i);
    if i == |ops| {
      assert ops[..i] == ops;
    } else {
      var init := ops[..|ops| - 1];
      PrefixIsShort(init, i);
      assert init[..i] == ops[..i];
      ReachableIsGood(init);
      GoodIsKeyed(RunAll(init).value);
      StepIsLater(RunAll(init).value, ops[|ops| - 1]);
    }
  }

  /** The states of both runs before and after call number `i`. */
  lemma SafeStep(ops: seq<Op>, i: nat)
    requires RunAll(ops).Some? && AllSafe(ops) && PadsFit(ops) && i < |ops|
    requires |RunAll(ops).value.st.data| < 0x8000_0000 && forall op | op in ops :: InPhp(op)
    ensures RunAll(ops[..i]).Some? && RunAll(ops[..i + 1]).Some?
    ensures Good(RunAll(ops[..i]).value) && PadFits(RunAll(ops[..i]).value, ops[i])
    ensures Step(RunAll(ops[..i]).value, ops[i]) == RunAll(ops[..i + 1])
    ensures PhpRun(ops[..i]).Some? && PhpApply(PhpRun(ops[..i]).value, ops[i]) == PhpRun(ops[..i + 1])
    ensures PhpRun(ops[..i + 1]).Some?
    ensures PhpRun(ops[..i]).value.st.data == RunAll(ops[..i]).value.st.data
    ensures PhpRun(ops[..i + 1]).value.st.data == RunAll(ops[..i + 1]).value.st.data
  {
    hide Step, Good, Safe, PadFits, PhpApply, AllSafe, PadsFit;
    SafePrefix(ops, i);
    ReachableIsGood(ops[..i]);
    PrefixIsShort(ops, i);
    PrefixIsShort(ops, i + 1);
    FinishedBytesAgree(ops[..i]);
    FinishedBytesAgree(ops[..i + 1]);
    assert ops[..i + 1][..i] == ops[..i];
  }

  /** Where growth stopped a PHP run. */
  ghost predicate PhpOutgrewAt(ops: seq<Op>, k: nat, size: nat)
    requires forall op | op in ops :: InPhp(op)
  {
    k < |ops| && PhpRun(ops[..k]).Some? && size + PhpNeed(PhpRun(ops[..k]).value.st, ops[k]) > 0x4000_0000
  }

  lemma NextRoom(run: Run, op: Op, run1: Run, space: nat, data: seq<byte>)
    requires Good(run) && Step(run, op) == Some(run1) && data == run1.st.data
    requires PhpRoomy(op, space) && space + 1 + |data| >= run.log.room + |run.st.data|
    ensures space + 1 >= run1.log.room
  {
    hide Step, Apply, LogOp, WellTyped, Bracketed, Good, Keyed;
    StepParts(run, op);
    GoodIsKeyed(run);
    StepIsLater(run, op);
    RoomFits(run.log.room, run.st, run1.st, op, space);
  }

  /**
   The PHP builder refines a safe run: the same calls write Go's bytes from any initial size. It
   never throws, except for growth when the data and one call's need pass one gigabyte.
   */
  method PhpExecute(b: FlatbufferBuilder, ops: seq<Op>) returns (r: Outcome)
    requires b.Valid() && b.Written() == P.PHP_INITIAL && RunAll(ops).Some?
    requires AllSafe(ops) && PadsFit(ops) && |RunAll(ops).value.st.data| < 0x8000_0000
    requires forall op | op in ops :: InPhp(op)
    modifies b, b.bb
    ensures b.Valid() && (b.bb == old(b.bb) || fresh(b.bb))
    ensures r.Pass? ==> b.Written().st.data == RunAll(ops).value.st.data
    ensures r.Fail? ==> r.panic == TooLarge && exists k :: PhpOutgrewAt(ops, k, |b.Written().st.data|)
  {
    hide Step, Good, PhpApply, PhpRoomy, PhpNeed, PhpCallable, WellTyped, Bracketed, OpenOk, Growth.Registered,
      PowerOfTwo, AllSafe, PadsFit, PadFits, Safe, InPhp;
    var i := 0;
    assert ops[..0] == [];
    while i < |ops|
      invariant 0 <= i <= |ops| && b.Valid() && (b.bb == old(b.bb) || fresh(b.bb))
      invariant RunAll(ops[..i]).Some? && PhpRun(ops[..i]) == Some(b.Written())
      invariant b.Written().st.data == RunAll(ops[..i]).value.st.data
      invariant b.space + 1 >= RunAll(ops[..i]).value.log.room
    {
      ghost var run, p := RunAll(ops[..i]).value, b.Written();
      ghost var length := b.bb.Length;
      SafeStep(ops, i);
      GoodOpens(run, ops[i]);
      BracketedIsPhpCallable(b, run, ops[i]);
      r := PhpCall(b, ops[i]);
      if r.Fail? {
        assert r != Fail(Misuse);
        assert r.panic == TooLarge;
        assert PhpOutgrewAt(ops, i, |b.Written().st.data|);
        return r;
      }
      NextRoom(run, ops[i], RunAll(ops[..i + 1]).value, b.space, b.Written().st.data);
      i := i + 1;
    }
    assert ops[..i] == ops;
    r := Pass;
  }

  /**
   Two builders, one run: the same bytes, unless the data of one of them and one call's need pass
   one gigabyte.
   */
  method ExecuteBoth(go: Builder, php: FlatbufferBuilder, ops: seq<Op>) returns (r: Outcome)
    requires go.Valid() && go.Written() == START.st && php.Valid() && php.Written() == P.PHP_INITIAL
    requires go.buf != php.bb
    requires RunAll(ops).Some? && AllSafe(ops) && PadsFit(ops) && |RunAll(ops).value.st.data| < 0x8000_0000
    requires forall op | op in ops :: InPhp(op)
    modifies go, go.buf, php, php.bb
    ensures go.Valid() && php.Valid()
    ensures r.Pass? ==> go.Written().data == php.Written().st.data == RunAll(ops).value.st.data
    ensures r.Fail? ==> r.panic == TooLarge
    ensures r.Fail? ==>
      || (exists k :: OutgrewAt(ops, k, |go.Written().data|))
      || (exists k :: PhpOutgrewAt(ops, k, |php.Written().st.data|))
  {
    hide Step, AllSafe, PadsFit, InPhp, OutgrewAt, PhpOutgrewAt, Growth.Registered, PowerOfTwo;
    :- Execute(go, ops);
    :- PhpExecute(php, ops);
    r := Pass;
  }
}
