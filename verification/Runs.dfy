/**
 Whole runs of the builder. A run pairs the builder's state with a log of what the caller asked
 for: every word by the handle it was written at, every ended table with the last non-default
 value of each of its slots, every vector and string. `Step` is the builder's own operation,
 restricted to well-bracketed calls.
 */
module Runs {
  import opened Bits
  import opened Codec
  import opened Wrappers
  import opened Layout
  import opened Prepends

  datatype Op =
    | StartObjectOp(numFields: nat)
    | ScalarSlotOp(slot: nat, size: pos, kind: Kind, x: int, d: int)
    | UOffsetSlotOp(slot: nat, off: nat, dflt: nat)
    | StructSlotOp(slot: nat, at: nat, none: nat)
    | EndObjectOp
    | PrependOp(size: pos, kind: Kind, x: int)
    | PrependUOffsetOp(off: nat)
    | PrepOp(align: pos, additional: nat)
    | PadOp(n: nat)
    | StartVectorOp(elemSize: nat, numElems: nat, alignment: pos)
    | EndVectorOp(count: nat)
    | VectorOfTablesOp(offsets: seq<nat>)
    | StringOp(str: seq<byte>)
    | SharedStringOp(shared: seq<byte>)
    | ByteVectorOp(bytes: seq<byte>)
    | FinishOp(root: nat, fid: Option<seq<byte>>, sizePrefix: bool)

  /** A word in the buffer: a scalar of `k` bytes, or an offset to the handle `target`. */
  datatype Word = Scalar(n: int, k: nat) | Ref(target: nat)

  function Width(w: Word): nat {
    if w.Scalar? then w.k else 4
  }

  function Encode(w: Word, handle: nat): (b: seq<byte>)
    ensures |b| == Width(w)
  {
    match w
    case Scalar(n, k) => LE(n, k)
    case Ref(target) => LE(handle - target, 4)
  }

  /** A word and the handle of its first byte. */
  datatype Placed = At(handle: nat, word: Word)

  /** The logical content of a slot. */
  datatype Field = Absent | Value(n: int, k: nat) | Reference(target: nat) | Struct(at: nat)

  datatype Table = Table(vtable: nat, slots: seq<nat>, fields: seq<Field>)
  datatype Vtable = Vtable(objectSize: int, entries: seq<nat>)
  datatype Vector = Vector(elemSize: nat, count: nat, elems: seq<Word>)

  /** The bracket the caller is in; `flat` while every write inside a vector was one element. */
  datatype Open =
    | Closed
    | InObject(fields: seq<Field>)
    | InVector(start: nat, elemSize: nat, count: nat, flat: bool, elems: seq<Placed>)

  datatype Log = Log(
    words: set<Placed>,
    vtables: map<nat, Vtable>,
    tables: map<nat, Table>,
    vectors: map<nat, Vector>,
    blobs: map<nat, seq<byte>>,
    open: Open,
    room: nat)  // bytes certainly free in front of the data, whatever the capacity

  datatype Run = Run(st: State, log: Log)

  const START := Run(INITIAL, Log({}, map[], map[], map[], map[], Closed, 0))

  // ---- The builder's own operation ------------------------------------------

  predicate IsSize(k: int) {
    k == 1 || k == 2 || k == 4 || k == 8
  }

  /** The arguments of a call are values of the types that the builder's method declares. */
  predicate WellTyped(op: Op) {
    match op
    case ScalarSlotOp(_, size, kind, x, d) => IsSize(size) && InType(kind, size, x) && InType(kind, size, d)
    case PrependOp(size, kind, x) => IsSize(size) && InType(kind, size, x)
    case PrepOp(align, _) => PowerOfTwo(align)
    case StartVectorOp(_, _, alignment) => PowerOfTwo(alignment)
    case _ => true
  }

  /** The builder operation that `op` names; `None` is a panic. */
  function Apply(s: State, op: Op): Option<State> {
    match op
    case StartObjectOp(n) => StartObject(s, n)
    case ScalarSlotOp(slot, size, kind, x, d) => ScalarSlot(s, slot, size, kind, x, d)
    case UOffsetSlotOp(slot, x, d) => UOffsetSlot(s, slot, x, d)
    case StructSlotOp(slot, x, d) => StructSlot(s, slot, x, d)
    case EndObjectOp => EndObject(s)
    case PrependOp(size, _, x) => Some(PrependScalar(s, size, x))
    case PrependUOffsetOp(off) => PrependUOffset(s, off)
    case PrepOp(align, additional) => Some(Prep(s, align, additional))
    case PadOp(n) => Some(Place(s, Zeros(n)))
    case StartVectorOp(e, n, a) => StartVector(s, e, n, a)
    case EndVectorOp(n) => EndVector(s, n)
    case VectorOfTablesOp(offsets) => CreateVectorOfTables(s, offsets)
    case StringOp(str) => CreateString(s, str)
    case SharedStringOp(str) => (match CreateSharedString(s, str) case None => None case Some(p) => Some(p.0))
    case ByteVectorOp(v) => CreateByteVector(s, v)
    case FinishOp(root, fid, sizePrefix) => Finish(s, root, fid, sizePrefix)
  }

  // ---- Bracketing -----------------------------------------------------------

  /** What a well-bracketed caller obeys beyond the builder's own assertions. */
  predicate Bracketed(r: Run, op: Op) {
    var s, log := r.st, r.log;
    match op
    case StartObjectOp(n) => n < 0x8000 - 2
    case ScalarSlotOp(_, _, _, _, _) => log.open.InObject?
    case UOffsetSlotOp(_, _, _) => log.open.InObject?
    case StructSlotOp(_, _, _) => log.open.InObject?
    case EndObjectOp => log.open.InObject? && ObjectOffset(s) - s.objectEnd < 0x1_0000
    case PadOp(n) => n <= log.room
    case EndVectorOp(n) =>
      log.open.InVector? && n == log.open.count && |s.data| == log.open.start + log.open.elemSize * n
    case FinishOp(root, _, _) => root in log.tables
    case _ => true
  }

  // ---- The log --------------------------------------------------------------

  function Minus(a: nat, b: nat): nat {
    if a >= b then a - b else 0
  }

  function AtLeast(a: nat, b: nat): nat {
    if a >= b then a else b
  }

  /** The words of a vtable at handle `v`. */
  function VtableWords(v: nat, t: Vtable): set<Placed>
    requires v >= 4 + 2 * |t.entries|
  {
    {At(v, Scalar(2 * (|t.entries| + 2), 2)), At(v - 2, Scalar(t.objectSize, 2))}
    + (set i | 0 <= i < |t.entries| :: At(v - 4 - 2 * i, Scalar(t.entries[i], 2)))
  }

  /** The words of a vector of offsets at handle `v`. */
  function ListWords(v: nat, offsets: seq<nat>): set<Placed> {
    {At(v, Scalar(|offsets|, 4))} + (set i | 0 <= i < |offsets| :: At(Minus(v, 4 + 4 * i), Ref(offsets[i])))
  }

  function Refs(offsets: seq<nat>): (r: seq<Word>)
    ensures |r| == |offsets| && forall i :: 0 <= i < |r| ==> r[i] == Ref(offsets[i])
  {
    seq(|offsets|, i requires 0 <= i < |offsets| => Ref(offsets[i]))
  }

  function Entries(vt: seq<nat>, objectOffset: nat): (e: seq<nat>)
    ensures |e| == |vt|
    ensures forall i :: 0 <= i < |vt| && vt[i] <= objectOffset ==> e[i] == Entry(vt[i], objectOffset)
  {
    seq(|vt|, i requires 0 <= i < |vt| => if vt[i] <= objectOffset then Entry(vt[i], objectOffset) else 0)
  }

  function WordsOf(elems: seq<Placed>): (w: seq<Word>)
    ensures |w| == |elems| && forall i :: 0 <= i < |w| ==> w[i] == elems[i].word
  {
    seq(|elems|, i requires 0 <= i < |elems| => elems[i].word)
  }

  /** Record a word just written at the front. */
  function Wrote(log: Log, p: Placed): Log {
    log.(words := log.words + {p},
         open := if log.open.InVector?
                 then log.open.(flat := log.open.flat && Width(p.word) == log.open.elemSize,
                                elems := [p] + log.open.elems)
                 else log.open)
  }

  function SetField(log: Log, slot: nat, f: Field): Log {
    if log.open.InObject? && slot < |log.open.fields|
    then log.(open := InObject(log.open.fields[slot := f]))
    else log
  }

  /** Record a vector whose length word has just been written at `h`. */
  function Ended(log: Log, h: nat, v: Vector): Log {
    log.(words := log.words + {At(h, Scalar(v.count, 4))}, vectors := log.vectors[h := v], open := Closed)
  }

  function EndedList(log: Log, h: nat, offsets: seq<nat>): Log {
    log.(words := log.words + ListWords(h, offsets), vectors := log.vectors[h := Vector(4, |offsets|, Refs(offsets))])
  }

  /** The vector that the bracket announces, with its elements if every write was one. */
  function OpenVector(open: Open, count: nat): Vector {
    if open.InVector? && open.flat && |open.elems| == count then Vector(open.elemSize, count, WordsOf(open.elems))
    else Vector(if open.InVector? then open.elemSize else 0, count, [])
  }

  /** The words of Finish in a buffer of length `h`. */
  function FinishWords(h: nat, root: nat, sizePrefix: bool): set<Placed> {
    if sizePrefix then {At(Minus(h, 4), Ref(root)), At(h, Scalar(h - 4, 4))} else {At(h, Ref(root))}
  }

  function EndedBlob(log: Log, h: nat, count: nat, bytes: seq<byte>): Log {
    Ended(log, h, Vector(1, count, [])).(blobs := log.blobs[h := bytes])
  }

  /** Record the table at `o` with the vtable `v`, and the vtable itself unless it is shared. */
  function EndedTableAt(log: Log, s: State, o: nat, v: nat, vt: seq<nat>, shared: bool): Log {
    var t := Vtable(o - s.objectEnd, Entries(vt, o));
    var fields := if log.open.InObject? then log.open.fields else [];
    var log1 := log.(words := log.words + {At(o, Scalar(v - o, 4))},
                     tables := log.tables[o := Table(v, s.vtable, fields)], open := Closed);
    if shared || v < 4 + 2 * |vt| then log1
    else log1.(words := log1.words + VtableWords(v, t), vtables := log1.vtables[v := t])
  }

  function EndedTable(log: Log, s: State): Log {
    EndedTableAt(log, s, ObjectOffset(s), VtableOf(s), Trim(s.vtable), SharedVtable(s) != 0)
  }

  /** The log after `op` took the builder from `s` to `s1`. */
  function LogOp(log: Log, s: State, s1: State, op: Op): Log {
    var h := |s1.data|;
    match op
    case StartObjectOp(n) => log.(open := InObject(seq(n, i => Absent)))
    case ScalarSlotOp(slot, size, kind, x, d) =>
      if SameValue(kind, size, x, d) then log
      else SetField(Wrote(log, At(h, Scalar(x, size))), slot, Value(x, size))
    case UOffsetSlotOp(slot, x, d) =>
      if x == d then log else SetField(Wrote(log, At(h, Ref(x))), slot, Reference(x))
    case StructSlotOp(slot, x, d) =>
      if x == d then log else SetField(log, slot, if x == 0 then Absent else Struct(x))
    case EndObjectOp => EndedTable(log, s)
    case PrependOp(size, _, x) => Wrote(log, At(h, Scalar(x, size)))
    case PrependUOffsetOp(off) => Wrote(log, At(h, Ref(off)))
    case PrepOp(_, _) => log
    case PadOp(_) => log
    case StartVectorOp(e, n, _) => log.(open := InVector(h, e, n, true, []))
    case EndVectorOp(n) =>
      Ended(log, h, OpenVector(log.open, n))
    case VectorOfTablesOp(offsets) =>
      EndedList(log, h, offsets)
    case StringOp(str) => EndedBlob(log, h, |str|, str + [0])
    case SharedStringOp(str) => if str in s.shared then log else EndedBlob(log, h, |str|, str + [0])
    case ByteVectorOp(v) => EndedBlob(log, h, |v|, v)
    case FinishOp(root, fid, sizePrefix) =>
      log.(words := log.words + FinishWords(h, root, sizePrefix))
  }

  /** Free bytes guaranteed after `op`: the last Prep leaves at least one byte in front of its word. */
  function RoomAfter(room: nat, s: State, s1: State, op: Op): nat {
    var left := Minus(room, Minus(|s1.data|, |s.data|));
    match op
    case PadOp(_) => left
    case EndVectorOp(_) => left
    case PrepOp(align, additional) => AtLeast(left, align + additional + 1)
    case StartVectorOp(e, n, _) => AtLeast(left, e * n + 5)
    case _ => AtLeast(left, if s1.data == s.data then 0 else 1)
  }

  // ---- Runs -----------------------------------------------------------------

  /** One well-bracketed call; `None` when the call is not well-bracketed or the builder panics. */
  function Step(r: Run, op: Op): Option<Run> {
    if !WellTyped(op) || !Bracketed(r, op) then None
    else
      match Apply(r.st, op)
      case None => None
      case Some(s1) =>
        Some(Run(s1, LogOp(r.log, r.st, s1, op).(room := RoomAfter(r.log.room, r.st, s1, op))))
  }

  /** The calls `ops` in order, from `r` on. */
  function RunFrom(r: Run, ops: seq<Op>): Option<Run>
    decreases |ops|
  {
    if ops == [] then Some(r)
    else
      match RunFrom(r, ops[..|ops| - 1])
      case None => None
      case Some(r1) => Step(r1, ops[|ops| - 1])
  }

  /** A run of a new builder. */
  function RunAll(ops: seq<Op>): Option<Run> {
    RunFrom(START, ops)
  }
}
