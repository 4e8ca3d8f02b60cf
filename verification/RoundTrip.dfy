/** Reading a built buffer gives back what the run logged. */
module RoundTrip {
  import opened Bits
  import opened Codec
  import opened Wrappers
  import opened Layout
  import opened Prepends
  import opened Runs
  import opened Invariants
  import opened Sharing
  import G = GoTable

  // ---- Words ------------------------------------------------------------------

  lemma SmallWraps(x: int)
    requires 0 <= x < 0x1_0000_0000
    ensures G.Wrap32(x) == x
  {
  }

  lemma ScalarLoads(data: seq<byte>, m: int, words: set<Placed>, h: nat, n: int, k: nat)
    requires WordsOk(data, m, words) && At(h, Scalar(n, k)) in words
    ensures k <= h <= |data| && G.Load(data, |data| - h, k) == Some(n % Pow256(k))
    ensures forall kind :: G.LoadAs(data, |data| - h, kind, k) == Some(Interpret(kind, k, n))
  {
    assert PlacedOk(data, m, At(h, Scalar(n, k)));
    LoadAfterStore(n, k);
  }

  /** Following an offset word leads to its target. */
  lemma RefLoads(data: seq<byte>, m: int, words: set<Placed>, h: nat, target: nat)
    requires WordsOk(data, m, words) && At(h, Ref(target)) in words && |data| < 0x8000_0000
    ensures 4 <= h <= |data| && target <= h - 4
    ensures G.Indirect(data, |data| - h) == Some(|data| - target)
  {
    assert PlacedOk(data, m, At(h, Ref(target)));
    Widths();
    LoadAfterStoreUnsigned(h - target, 4);
    SmallWraps(|data| - h + (h - target));
  }

  lemma SOffsetLoads(data: seq<byte>, m: int, words: set<Placed>, o: nat, v: nat)
    requires WordsOk(data, m, words) && At(o, Scalar(v - o, 4)) in words && v <= |data| < 0x8000_0000
    ensures 4 <= o <= |data| && G.LoadSOffset(data, |data| - o) == Some(v - o)
  {
    assert PlacedOk(data, m, At(o, Scalar(v - o, 4)));
    Widths();
    LoadAfterStoreSigned(v - o, 4);
  }

  // ---- Tables -----------------------------------------------------------------

  lemma OffsetAt(data: seq<byte>, pos: nat, soffset: int, at: nat, size: nat, vo: nat)
    requires |data| < 0x8000_0000
    requires G.LoadSOffset(data, pos) == Some(soffset) && at == pos - soffset && G.Load(data, at, 2) == Some(size)
    requires vo < size ==> at + vo + 2 <= |data|
    ensures G.Offset(data, pos, vo) == Some(if vo < size then Get(data, at + vo, 2) else 0)
  {
    SmallWraps(at);
    if vo < size {
      SmallWraps(at + vo);
    }
  }

  /** The distance from the table to the field that was put in slot `i`, 0 if none was. */
  function FieldDistance(t: Table, o: nat, i: nat): int {
    if i < |t.slots| then Entry(t.slots[i], o) else 0
  }

  /** What the invariant says of one ended table. */
  ghost predicate TableIn(data: seq<byte>, m: int, log: Log, o: nat) {
    && |data| < 0x8000_0000 && WordsOk(data, m, log.words)
    && o in log.tables && TableOk(log, o, log.tables[o])
    && log.tables[o].vtable <= |data|
    && VtableOk(log.words, log.tables[o].vtable, log.vtables[log.tables[o].vtable])
  }

  /** Table.Offset finds, for every slot number, the distance to the field that was in the slot. */
  lemma OffsetReads(data: seq<byte>, m: int, log: Log, o: nat, i: nat)
    requires TableIn(data, m, log, o)
    ensures 4 <= o <= |data|
    ensures FieldDistance(log.tables[o], o, i) >= 0
    ensures G.Offset(data, |data| - o, 4 + 2 * i) == Some(FieldDistance(log.tables[o], o, i))
  {
    hide WordsOk, PlacedOk, FieldsOk, VtableWords, G.Offset;
    var v := log.tables[o].vtable;
    var vt := log.vtables[v];
    SOffsetLoads(data, m, log.words, o, v);
    VtableHeadReads(data, m, log.words, v, vt);
    if i < |vt.entries| {
      EntryReads(data, m, log.words, v, vt, i);
    }
    OffsetAt(data, |data| - o, v - o, |data| - v, 4 + 2 * |vt.entries|, 4 + 2 * i);
    assert EntryOr0(vt.entries, i) == FieldDistance(log.tables[o], o, i);
  }

  /**
   What a slot of the table at position `pos` reads as, by the field the log has for it. The getter
   of a scalar type that has the value gives that value, the other getters of its width its word.
   */
  ghost predicate SlotReads(data: seq<byte>, pos: nat, slot: nat, f: Field) {
    var off := G.Offset(data, pos, slot);
    && off.Some?
    && match f
       case Absent => off.value == 0 && forall kind, k: nat, d :: G.GetSlot(data, pos, slot, kind, k, d) == Some(d)
       case Value(n, k) =>
         && off.value != 0
         && (forall kind, d :: G.GetSlot(data, pos, slot, kind, k, d) == Some(Interpret(kind, k, n)))
         && (forall kind, d | InType(kind, k, n) :: G.GetSlot(data, pos, slot, kind, k, d) == Some(n))
       case Reference(target) =>
         && off.value != 0 && G.Indirect(data, pos + off.value) == Some(|data| - target)
         && G.Union(data, pos, off.value) == Some(|data| - target)
       case Struct(at) => off.value != 0 && pos + off.value == |data| - at
  }

  function FieldOf(t: Table, i: nat): Field {
    if i < |t.fields| then t.fields[i] else Absent
  }

  lemma AbsentReads(data: seq<byte>, pos: nat, slot: nat)
    requires G.Offset(data, pos, slot) == Some(0)
    ensures SlotReads(data, pos, slot, Absent)
  {
  }

  lemma ValueReads(data: seq<byte>, pos: nat, slot: nat, off: nat, n: int, k: nat)
    requires G.Offset(data, pos, slot) == Some(off) && off != 0 && pos + off < 0x8000_0000
    requires forall kind :: G.LoadAs(data, pos + off, kind, k) == Some(Interpret(kind, k, n))
    ensures SlotReads(data, pos, slot, Value(n, k))
  {
    SmallWraps(pos + off);
  }

  lemma PlaceReads(data: seq<byte>, pos: nat, slot: nat, off: nat, f: Field)
    requires G.Offset(data, pos, slot) == Some(off) && off != 0 && pos + off <= |data| < 0x8000_0000
    requires f.Reference? || f.Struct?
    requires f.Reference? ==> G.Indirect(data, pos + off) == Some(|data| - f.target)
    requires f.Struct? ==> pos + off == |data| - f.at
    ensures SlotReads(data, pos, slot, f)
  {
    SmallWraps(pos + off);
  }

  /** The field `f` is the word, or the struct, at handle `h`, `d` bytes into the table at `o`. */
  ghost predicate FieldAt(words: set<Placed>, o: nat, h: nat, d: nat, f: Field) {
    match f
    case Absent => d == 0
    case Value(n, k) => 0 < h < o && d == o - h && At(h, Scalar(n, k)) in words
    case Reference(target) => 0 < h < o && d == o - h && At(h, Ref(target)) in words
    case Struct(at) => 0 < h < o && d == o - h && h == at
  }

  lemma FieldReads(data: seq<byte>, m: int, words: set<Placed>, o: nat, h: nat, d: nat, slot: nat, f: Field)
    requires WordsOk(data, m, words) && o <= |data| < 0x8000_0000
    requires G.Offset(data, |data| - o, slot) == Some(d) && FieldAt(words, o, h, d, f)
    ensures SlotReads(data, |data| - o, slot, f)
  {
    hide SlotReads, WordsOk, G.Offset, G.Indirect, G.Load, G.LoadAs, G.GetSlot, Interpret;
    match f
    case Absent => AbsentReads(data, |data| - o, slot);
    case Value(n, k) =>
      ScalarLoads(data, m, words, h, n, k);
      ValueReads(data, |data| - o, slot, d, n, k);
    case Reference(target) =>
      RefLoads(data, m, words, h, target);
      PlaceReads(data, |data| - o, slot, d, f);
    case Struct(at) => PlaceReads(data, |data| - o, slot, d, f);
  }

  function HandleOf(t: Table, i: nat): nat {
    if i < |t.slots| then t.slots[i] else 0
  }

  lemma FieldFacts(log: Log, o: nat, i: nat)
    requires o in log.tables && TableOk(log, o, log.tables[o])
    ensures var t := log.tables[o];
      && FieldDistance(t, o, i) >= 0
      && FieldAt(log.words, o, HandleOf(t, i), FieldDistance(t, o, i), FieldOf(t, i))
  {
    var t := log.tables[o];
    if i < |t.fields| {
      assert FieldOk(log.words, t.slots[i], t.fields[i]);
      assert t.slots[i] < o;
    }
  }

  /** Every slot of an ended table, declared or not, reads as logged. */
  lemma SlotsRead(data: seq<byte>, m: int, log: Log, o: nat, i: nat)
    requires TableIn(data, m, log, o)
    ensures o <= |data| && SlotReads(data, |data| - o, 4 + 2 * i, FieldOf(log.tables[o], i))
  {
    var t := log.tables[o];
    OffsetReads(data, m, log, o, i);
    FieldFacts(log, o, i);
    FieldReads(data, m, log.words, o, HandleOf(t, i), FieldDistance(t, o, i), 4 + 2 * i, FieldOf(t, i));
  }

  // ---- Strings and vectors -------------------------------------------------------

  lemma LengthLoads(data: seq<byte>, m: int, words: set<Placed>, h: nat, v: Vector)
    requires WordsOk(data, m, words) && VectorOk(words, h, v) && v.count < 0x1_0000_0000
    ensures 4 <= h <= |data| && G.Load(data, |data| - h, 4) == Some(v.count)
  {
    Widths();
    ScalarLoads(data, m, words, h, v.count, 4);
    LoadAfterStoreUnsigned(v.count, 4);
    LoadAfterStore(v.count, 4);
  }

  lemma ByteVectorAt(data: seq<byte>, off: nat, at: nat, n: nat)
    requires off + 4 <= |data| < 0x8000_0000
    requires G.Indirect(data, off) == Some(at) && G.Load(data, at, 4) == Some(n) && at + 4 + n <= |data|
    ensures G.ByteVector(data, off) == Some(data[at + 4..at + 4 + n])
  {
  }

  /** A string or byte vector that an offset word points to reads as the bytes it was created from. */
  lemma BlobReads(data: seq<byte>, m: int, words: set<Placed>, h: nat, target: nat, v: Vector, b: seq<byte>)
    requires WordsOk(data, m, words) && At(h, Ref(target)) in words && |data| < 0x8000_0000
    requires VectorOk(words, target, v) && BlobOk(data, target, b) && v.count <= |b|
    ensures 4 <= h <= |data| && G.ByteVector(data, |data| - h) == Some(b[..v.count])
  {
    RefLoads(data, m, words, h, target);
    LengthLoads(data, m, words, target, v);
    ByteVectorAt(data, |data| - h, |data| - target, v.count);
    var start := |data| - target + 4;
    assert data[start..start + v.count] == data[start..start + |b|][..v.count];
  }

  /** The vector that an offset word points to: its length and the start of its elements. */
  lemma VectorReads(data: seq<byte>, m: int, words: set<Placed>, pos: nat, off: nat, target: nat, v: Vector)
    requires WordsOk(data, m, words) && |data| < 0x8000_0000
    requires pos + off <= |data| && At(|data| - (pos + off), Ref(target)) in words
    requires VectorOk(words, target, v) && v.count < 0x1_0000_0000
    ensures 4 <= target <= |data|
    ensures G.VectorLen(data, pos, off) == Some(v.count)
    ensures G.Vector(data, pos, off) == Some(|data| - target + 4)
  {
    SmallWraps(pos + off);
    RefLoads(data, m, words, |data| - (pos + off), target);
    LengthLoads(data, m, words, target, v);
    SmallWraps(|data| - target + 4);
  }
}
