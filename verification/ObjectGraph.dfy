/**
 Object graphs. A shape says which fields to follow, to any depth of tables and vectors; reading a
 shape from the buffer gives the value that the log has for it.
 */
module ObjectGraph {
  import opened Bits
  import opened Codec
  import opened Wrappers
  import opened Layout
  import opened Runs
  import opened Invariants
  import opened RoundTrip
  import opened Reachable
  import opened WholeRuns
  import G = GoTable

  datatype Shape = Num(kind: Kind, k: nat) | Str | Tab(fields: seq<Shape>) | Vec(elem: Shape)

  datatype Node
    = Missing | Number(n: int) | Bytes(bytes: seq<byte>) | Record(fields: seq<Node>) | Items(items: seq<Node>)

  /** The width of a shape in a table or vector: scalars are inline, the rest are offsets. */
  function InlineSize(shape: Shape): nat {
    if shape.Num? then shape.k else 4
  }

  // ---- What the reader sees ----------------------------------------------------

  /** The value of `shape` whose inline part is `off` bytes after `base`. */
  function Decode(buf: seq<byte>, shape: Shape, base: nat, off: nat): Option<Node>
    decreases shape, 1, 0
  {
    match shape
    case Num(kind, k) => (match G.LoadAs(buf, base + off, kind, k) case None => None case Some(n) => Some(Number(n)))
    case Str => (match G.ByteVector(buf, base + off) case None => None case Some(b) => Some(Bytes(b)))
    case Tab(fields) =>
      (match G.Indirect(buf, base + off)
       case None => None
       case Some(pos) =>
         match DecodeFields(buf, shape, pos, |fields|)
         case None => None
         case Some(nodes) => Some(Record(nodes)))
    case Vec(elem) =>
      var n, start := G.VectorLen(buf, base, off), G.Vector(buf, base, off);
      if n.None? || start.None? then None
      else
        match DecodeItems(buf, shape, start.value, n.value)
        case None => None
        case Some(nodes) => Some(Items(nodes))
  }

  /** Slots 0 to `i` of the table at `pos`. */
  function DecodeFields(buf: seq<byte>, shape: Shape, pos: nat, i: nat): Option<seq<Node>>
    requires shape.Tab? && i <= |shape.fields|
    decreases shape, 0, i
  {
    if i == 0 then Some([])
    else
      var first, off := DecodeFields(buf, shape, pos, i - 1), G.Offset(buf, pos, 4 + 2 * (i - 1));
      if first.None? || off.None? then None
      else if off.value == 0 then Some(first.value + [Missing])
      else
        match Decode(buf, shape.fields[i - 1], pos, off.value)
        case None => None
        case Some(node) => Some(first.value + [node])
  }

  /** The first `i` elements of the vector that starts at `start`. */
  function DecodeItems(buf: seq<byte>, shape: Shape, start: nat, i: nat): Option<seq<Node>>
    requires shape.Vec?
    decreases shape, 0, i
  {
    if i == 0 then Some([])
    else
      var first := DecodeItems(buf, shape, start, i - 1);
      var last := Decode(buf, shape.elem, start, InlineSize(shape.elem) * (i - 1));
      if first.None? || last.None? then None else Some(first.value + [last.value])
  }

  // ---- What the log says ---------------------------------------------------------

  function AsField(w: Word): Field {
    match w
    case Scalar(n, k) => Value(n, k)
    case Ref(target) => Reference(target)
  }

  function Denote(log: Log, shape: Shape, f: Field): Option<Node>
    decreases shape, 1, 0
  {
    match shape
    case Num(kind, k) => if f.Value? && f.k == k then Some(Number(Interpret(kind, k, f.n))) else None
    case Str =>
      if f.Reference? && f.target in log.blobs && f.target in log.vectors
         && log.vectors[f.target].count <= |log.blobs[f.target]|
      then Some(Bytes(log.blobs[f.target][..log.vectors[f.target].count])) else None
    case Tab(fields) =>
      if f.Reference? && f.target in log.tables
      then match DenoteFields(log, shape, log.tables[f.target], |fields|)
           case None => None
           case Some(nodes) => Some(Record(nodes))
      else None
    case Vec(elem) =>
      if f.Reference? && f.target in log.vectors && log.vectors[f.target].elemSize == InlineSize(elem)
         && |log.vectors[f.target].elems| == log.vectors[f.target].count
      then match DenoteItems(log, shape, log.vectors[f.target].elems, log.vectors[f.target].count)
           case None => None
           case Some(nodes) => Some(Items(nodes))
      else None
  }

  function DenoteFields(log: Log, shape: Shape, t: Table, i: nat): Option<seq<Node>>
    requires shape.Tab? && i <= |shape.fields|
    decreases shape, 0, i
  {
    if i == 0 then Some([])
    else
      var first, f := DenoteFields(log, shape, t, i - 1), FieldOf(t, i - 1);
      if first.None? then None
      else if f.Absent? then Some(first.value + [Missing])
      else
        match Denote(log, shape.fields[i - 1], f)
        case None => None
        case Some(node) => Some(first.value + [node])
  }

  function DenoteItems(log: Log, shape: Shape, elems: seq<Word>, i: nat): Option<seq<Node>>
    requires shape.Vec? && i <= |elems|
    decreases shape, 0, i
  {
    if i == 0 then Some([])
    else
      var first, last := DenoteItems(log, shape, elems, i - 1), Denote(log, shape.elem, AsField(elems[i - 1]));
      if first.None? || last.None? then None else Some(first.value + [last.value])
  }

  // ---- They agree -------------------------------------------------------------------

  /** The parts of the invariant that reading needs. */
  ghost predicate Readable(data: seq<byte>, m: int, log: Log) {
    && |data| < 0x8000_0000 && WordsOk(data, m, log.words)
    && (forall o | o in log.tables :: TableIn(data, m, log, o))
    && (forall h | h in log.vectors :: VectorOk(log.words, h, log.vectors[h]))
    && (forall h | h in log.blobs :: BlobOk(data, h, log.blobs[h]))
  }

  /** The field's word is at handle `h`. */
  ghost predicate FieldIsAt(words: set<Placed>, h: nat, f: Field) {
    match f
    case Value(n, k) => At(h, Scalar(n, k)) in words
    case Reference(target) => At(h, Ref(target)) in words
    case _ => false
  }

  lemma Stretches(e: nat, k: nat)
    requires e >= 1
    ensures e * k >= k
  {
  }

  lemma ElementsFit(data: seq<byte>, m: int, words: set<Placed>, h: nat, v: Vector)
    requires WordsOk(data, m, words) && VectorOk(words, h, v) && |v.elems| == v.count && |data| < 0x8000_0000
    ensures v.count < 0x1_0000_0000
  {
    assert PlacedOk(data, m, At(h, Scalar(v.count, 4)));
    if v.count > 0 {
      assert ElementOk(words, h, v, v.count - 1);
      assert PlacedOk(data, m, At(h - 4 - v.elemSize * (v.count - 1), v.elems[v.count - 1]));
      Stretches(v.elemSize, v.count - 1);
    }
  }

  /** Element `i` of a logged vector is the word where the reader looks for it. */
  lemma ElementIsAt(data: seq<byte>, m: int, words: set<Placed>, t: nat, v: Vector, i: nat)
    requires WordsOk(data, m, words) && VectorOk(words, t, v) && t <= |data| && i < |v.elems|
    ensures v.elemSize * i + 4 <= t
    ensures FieldIsAt(words, |data| - (|data| - t + 4 + v.elemSize * i), AsField(v.elems[i]))
  {
    assert ElementOk(words, t, v, i);
  }

  /** Whatever the log says a word stands for, to any depth, the reader decodes from the buffer. */
  lemma {:induction false} DecodeIsDenote(data: seq<byte>, m: int, log: Log, shape: Shape, base: nat, off: nat,
                                          f: Field)
    requires Readable(data, m, log) && base + off <= |data| && FieldIsAt(log.words, |data| - (base + off), f)
    requires Denote(log, shape, f).Some?
    ensures Decode(data, shape, base, off) == Denote(log, shape, f)
    decreases shape, 1, 0
  {
    hide WordsOk, TableIn, VectorOk, BlobOk, Interpret, G.LoadAs, G.Indirect, G.ByteVector, G.VectorLen, G.Vector,
      DenoteFields, DenoteItems, DecodeFields, DecodeItems;
    var h := |data| - (base + off);
    match shape
    case Num(kind, k) => ScalarLoads(data, m, log.words, h, f.n, k);
    case Str => BlobReads(data, m, log.words, h, f.target, log.vectors[f.target], log.blobs[f.target]);
    case Tab(fields) =>
      RefLoads(data, m, log.words, h, f.target);
      FieldsDecode(data, m, log, shape, f.target, |fields|);
    case Vec(elem) =>
      var v := log.vectors[f.target];
      ElementsFit(data, m, log.words, f.target, v);
      VectorReads(data, m, log.words, base, off, f.target, v);
      ItemsDecode(data, m, log, shape, f.target, v, v.count);
  }

  lemma {:induction false} FieldsDecode(data: seq<byte>, m: int, log: Log, shape: Shape, o: nat, i: nat)
    requires Readable(data, m, log) && shape.Tab? && i <= |shape.fields| && o in log.tables
    requires DenoteFields(log, shape, log.tables[o], i).Some?
    ensures o <= |data| && DecodeFields(data, shape, |data| - o, i) == DenoteFields(log, shape, log.tables[o], i)
    decreases shape, 0, i
  {
    hide WordsOk, TableOk, VectorOk, BlobOk, SlotReads, G.Offset, Denote, Decode, VtableOk, FieldDistance;
    if i == 0 {
      SlotsRead(data, m, log, o, 0);
    } else {
      var t := log.tables[o];
      var f := FieldOf(t, i - 1);
      FieldsDecode(data, m, log, shape, o, i - 1);
      OffsetReads(data, m, log, o, i - 1);
      FieldFacts(log, o, i - 1);
      if !f.Absent? {
        var d := FieldDistance(t, o, i - 1);
        SlotNode(log, shape, t, i);
        DecodeIsDenote(data, m, log, shape.fields[i - 1], |data| - o, d, f);
      }
    }
  }

  /** A present slot that has a denotation is not an inline struct. */
  lemma SlotNode(log: Log, shape: Shape, t: Table, i: nat)
    requires shape.Tab? && 0 < i <= |shape.fields| && DenoteFields(log, shape, t, i).Some?
    requires !FieldOf(t, i - 1).Absent?
    ensures Denote(log, shape.fields[i - 1], FieldOf(t, i - 1)).Some?
    ensures FieldOf(t, i - 1).Value? || FieldOf(t, i - 1).Reference?
  {
  }

  lemma {:induction false} ItemsDecode(data: seq<byte>, m: int, log: Log, shape: Shape, t: nat, v: Vector, i: nat)
    requires Readable(data, m, log) && shape.Vec? && i <= |v.elems| && t <= |data|
    requires 4 <= t && VectorOk(log.words, t, v) && v.elemSize == InlineSize(shape.elem)
    requires DenoteItems(log, shape, v.elems, i).Some?
    ensures DecodeItems(data, shape, |data| - t + 4, i) == DenoteItems(log, shape, v.elems, i)
    decreases shape, 0, i
  {
    hide WordsOk, TableIn, VectorOk, BlobOk, Denote, Decode, FieldIsAt;
    if i > 0 {
      ItemsDecode(data, m, log, shape, t, v, i - 1);
      ElementIsAt(data, m, log.words, t, v, i - 1);
      DecodeIsDenote(data, m, log, shape.elem, |data| - t + 4, v.elemSize * (i - 1), AsField(v.elems[i - 1]));
    }
  }

  lemma GoodIsReadable(r: Run)
    requires Good(r) && |r.st.data| < 0x8000_0000
    ensures Readable(r.st.data, r.st.minalign, r.log)
  {
    forall o | o in r.log.tables
      ensures TableIn(r.st.data, r.st.minalign, r.log, o)
    {
      TableIsIn(r, o);
    }
  }

  /** The object graph under the root of a finished buffer is the one that was built. */
  lemma RootRoundTrip(r: Run, root: nat, fid: Option<seq<byte>>, sizePrefix: bool, r1: Run, shape: Shape)
    requires Good(r) && Step(r, FinishOp(root, fid, sizePrefix)) == Some(r1) && |r1.st.data| < 0x8000_0000
    requires Denote(r.log, shape, Reference(root)).Some?
    ensures Decode(r1.st.data, shape, 0, if sizePrefix then 4 else 0) == Denote(r.log, shape, Reference(root))
  {
    hide Good, Denote, Decode, Readable, Later;
    StepKeepsGood(r, FinishOp(root, fid, sizePrefix));
    GoodIsReadable(r1);
    RootWord(r, root, fid, sizePrefix, r1);
    DenoteAfterFinish(r, root, fid, sizePrefix, r1, shape, Reference(root));
    assert 4 <= |r1.st.data| by { FinishedLength(r, root, fid, sizePrefix, r1); }
    DecodeIsDenote(r1.st.data, r1.st.minalign, r1.log, shape, 0, if sizePrefix then 4 else 0, Reference(root));
  }

  lemma FinishedLength(r: Run, root: nat, fid: Option<seq<byte>>, sizePrefix: bool, r1: Run)
    requires Good(r) && Step(r, FinishOp(root, fid, sizePrefix)) == Some(r1)
    ensures |r1.st.data| >= if sizePrefix then 8 else 4
  {
    hide *;
    GoodIsKeyed(r);
    FinishParts(r, root, fid, sizePrefix, r1);
    FinishLayout(r.st, root, fid, sizePrefix);
  }

  lemma RootWord(r: Run, root: nat, fid: Option<seq<byte>>, sizePrefix: bool, r1: Run)
    requires Step(r, FinishOp(root, fid, sizePrefix)) == Some(r1)
    ensures At(Minus(|r1.st.data|, if sizePrefix then 4 else 0), Ref(root)) in r1.log.words
    ensures r1.log.tables == r.log.tables && r1.log.vectors == r.log.vectors && r1.log.blobs == r.log.blobs
  {
    hide Finish;
  }

  lemma {:induction false} DenoteDepends(log: Log, log1: Log, shape: Shape, f: Field)
    requires log1.tables == log.tables && log1.vectors == log.vectors && log1.blobs == log.blobs
    ensures Denote(log1, shape, f) == Denote(log, shape, f)
    decreases shape, 1, 0
  {
    match shape
    case Tab(fields) =>
      if f.Reference? && f.target in log.tables { FieldsDepend(log, log1, shape, log.tables[f.target], |fields|); }
    case Vec(elem) =>
      if f.Reference? && f.target in log.vectors && |log.vectors[f.target].elems| == log.vectors[f.target].count {
        ItemsDepend(log, log1, shape, log.vectors[f.target].elems, log.vectors[f.target].count);
      }
    case _ =>
  }

  lemma {:induction false} FieldsDepend(log: Log, log1: Log, shape: Shape, t: Table, i: nat)
    requires log1.tables == log.tables && log1.vectors == log.vectors && log1.blobs == log.blobs
    requires shape.Tab? && i <= |shape.fields|
    ensures DenoteFields(log1, shape, t, i) == DenoteFields(log, shape, t, i)
    decreases shape, 0, i
  {
    if i > 0 {
      FieldsDepend(log, log1, shape, t, i - 1);
      DenoteDepends(log, log1, shape.fields[i - 1], FieldOf(t, i - 1));
    }
  }

  lemma {:induction false} ItemsDepend(log: Log, log1: Log, shape: Shape, elems: seq<Word>, i: nat)
    requires log1.tables == log.tables && log1.vectors == log.vectors && log1.blobs == log.blobs
    requires shape.Vec? && i <= |elems|
    ensures DenoteItems(log1, shape, elems, i) == DenoteItems(log, shape, elems, i)
    decreases shape, 0, i
  {
    if i > 0 {
      ItemsDepend(log, log1, shape, elems, i - 1);
      DenoteDepends(log, log1, shape.elem, AsField(elems[i - 1]));
    }
  }

  lemma DenoteAfterFinish(r: Run, root: nat, fid: Option<seq<byte>>, sizePrefix: bool, r1: Run, shape: Shape, f: Field)
    requires Step(r, FinishOp(root, fid, sizePrefix)) == Some(r1)
    ensures Denote(r1.log, shape, f) == Denote(r.log, shape, f)
  {
    hide Denote;
    RootWord(r, root, fid, sizePrefix, r1);
    DenoteDepends(r.log, r1.log, shape, f);
  }
}
