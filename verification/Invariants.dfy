/**
 The whole-run invariant: every logged word, vtable, table, vector and string is in the data, and
 every word is aligned.
 */
module Invariants {
  import opened Bits
  import opened Codec
  import opened Wrappers
  import opened Layout
  import opened Prepends
  import opened Runs
  import opened Stability

  /** The word is in the data, at a handle divisible by its width. */
  ghost predicate PlacedOk(data: seq<byte>, minalign: int, p: Placed) {
    var k := Width(p.word);
    && PowerOfTwo(k) && k <= minalign
    && k <= p.handle <= |data| && p.handle % k == 0
    && data[|data| - p.handle..|data| - p.handle + k] == Encode(p.word, p.handle)
    && (p.word.Ref? ==> p.word.target + 4 <= p.handle)
  }

  ghost predicate WordsOk(data: seq<byte>, minalign: int, words: set<Placed>) {
    forall p | p in words :: PlacedOk(data, minalign, p)
  }

  ghost predicate VtableOk(words: set<Placed>, v: nat, t: Vtable) {
    && |t.entries| < 0x7ffe && 4 + 2 * |t.entries| <= v
    && 0 <= t.objectSize < 0x1_0000
    && VtableWords(v, t) <= words
    && forall i :: 0 <= i < |t.entries| ==> t.entries[i] < 0x1_0000 && t.entries[i] < v
  }

  ghost predicate VtablesOk(s: State, log: Log) {
    && (forall v | v in log.vtables :: v <= |s.data| && VtableOk(log.words, v, log.vtables[v]))
    && (forall i :: 0 <= i < |s.vtables| ==> s.vtables[i] in log.vtables)
    && (forall i, j :: 0 <= i < j < |s.vtables| ==>
         log.vtables[s.vtables[i]].entries != log.vtables[s.vtables[j]].entries)
  }

  ghost predicate FieldOk(words: set<Placed>, slot: nat, f: Field) {
    match f
    case Absent => slot == 0
    case Value(n, k) => slot != 0 && IsSize(k) && At(slot, Scalar(n, k)) in words
    case Reference(target) => slot != 0 && At(slot, Ref(target)) in words
    case Struct(at) => slot != 0 && slot == at
  }

  ghost predicate FieldsOk(words: set<Placed>, slots: seq<nat>, fields: seq<Field>) {
    |fields| == |slots| && forall i :: 0 <= i < |slots| ==> FieldOk(words, slots[i], fields[i])
  }

  /** The entry that a reader finds for slot `i`. */
  function EntryOr0(entries: seq<nat>, i: nat): nat {
    if i < |entries| then entries[i] else 0
  }

  ghost predicate SlotsMatch(entries: seq<nat>, slots: seq<nat>, o: nat) {
    && |entries| <= |slots|
    && forall i :: 0 <= i < |slots| ==> slots[i] < o && EntryOr0(entries, i) == Entry(slots[i], o)
  }

  ghost predicate TableOk(log: Log, o: nat, t: Table) {
    && At(o, Scalar(t.vtable - o, 4)) in log.words
    && t.vtable in log.vtables
    && SlotsMatch(log.vtables[t.vtable].entries, t.slots, o)
    && FieldsOk(log.words, t.slots, t.fields)
  }

  ghost predicate TablesOk(s: State, log: Log) {
    forall o | o in log.tables :: o <= |s.data| && TableOk(log, o, log.tables[o])
  }

  ghost predicate VectorOk(words: set<Placed>, h: nat, v: Vector) {
    && At(h, Scalar(v.count, 4)) in words
    && (v.elems != [] ==> |v.elems| == v.count)
    && forall i :: 0 <= i < |v.elems| ==> ElementOk(words, h, v, i)
  }

  ghost predicate ElementOk(words: set<Placed>, h: nat, v: Vector, i: nat)
    requires i < |v.elems|
  {
    v.elemSize * i + 4 <= h && Width(v.elems[i]) == v.elemSize && At(h - 4 - v.elemSize * i, v.elems[i]) in words
  }

  ghost predicate VectorsOk(s: State, log: Log) {
    forall h | h in log.vectors :: h <= |s.data| && VectorOk(log.words, h, log.vectors[h])
  }

  /** The bytes behind the length word at handle `h`. */
  ghost predicate BlobOk(data: seq<byte>, h: nat, b: seq<byte>) {
    4 + |b| <= h <= |data| && data[|data| - h + 4..|data| - h + 4 + |b|] == b
  }

  ghost predicate BlobsOk(s: State, log: Log) {
    forall h | h in log.blobs ::
      BlobOk(s.data, h, log.blobs[h]) && h in log.vectors && log.vectors[h].count <= |log.blobs[h]|
  }

  ghost predicate SharedOk(s: State, log: Log) {
    forall str | str in s.shared ::
      var h := s.shared[str];
      h in log.blobs && log.blobs[h] == str + [0] && h in log.vectors && log.vectors[h].count == |str|
  }

  ghost predicate Settled(s: State, log: Log) {
    && PowerOfTwo(s.minalign) && (log.tables != map[] ==> s.minalign >= 4)
    && VtablesOk(s, log) && TablesOk(s, log) && VectorsOk(s, log) && BlobsOk(s, log) && SharedOk(s, log)
  }

  ghost predicate ObjectOk(s: State, words: set<Placed>, fields: seq<Field>) {
    && s.nested && |s.vtable| < 0x7ffe && s.objectEnd <= |s.data|
    && FieldsOk(words, s.vtable, fields)
    && forall i :: 0 <= i < |s.vtable| ==> s.vtable[i] == 0 || s.objectEnd <= s.vtable[i] <= |s.data|
  }

  /** Element `i` of a flat vector sits between `start` and the front with the right distances. */
  ghost predicate FlatOk(s: State, words: set<Placed>, start: nat, e: nat, elems: seq<Placed>) {
    && start + e * |elems| <= |s.data|
    && forall i :: 0 <= i < |elems| ==> FlatElementOk(s, words, start, e, elems, i)
  }

  ghost predicate FlatElementOk(s: State, words: set<Placed>, start: nat, e: nat, elems: seq<Placed>, i: nat)
    requires i < |elems|
  {
    && elems[i] in words && Width(elems[i].word) == e
    && start + e * (|elems| - i) <= elems[i].handle && elems[i].handle + e * i <= |s.data|
  }

  ghost predicate OpenOk(s: State, log: Log) {
    match log.open
    case Closed => !s.nested
    case InObject(fields) => ObjectOk(s, log.words, fields)
    case InVector(start, e, count, flat, elems) =>
      && s.nested && s.minalign >= 4 && start <= |s.data|
      && (start + e * count) % 4 == 0
      && |s.data| + log.room >= start + e * count + 5
      && (flat ==> FlatOk(s, log.words, start, e, elems))
  }

  ghost predicate Good(r: Run) {
    && WordsOk(r.st.data, r.st.minalign, r.log.words)
    && Settled(r.st, r.log)
    && OpenOk(r.st, r.log)
  }

  // ---- Words ----------------------------------------------------------------

  lemma PlacedExtends(data: seq<byte>, data1: seq<byte>, m: int, m1: int, p: Placed)
    requires PlacedOk(data, m, p) && IsSuffix(data, data1) && m <= m1
    ensures PlacedOk(data1, m1, p)
  {
    var k, at, at1 := Width(p.word), |data| - p.handle, |data1| - p.handle;
    assert data1[at1..at1 + k] == data1[|data1| - |data|..][at..at + k];
  }

  /** Logged words stay in place when the data is extended. */
  lemma WordsExtend(s: State, s1: State, words: set<Placed>)
    requires WordsOk(s.data, s.minalign, words) && Extends(s, s1)
    ensures WordsOk(s1.data, s1.minalign, words)
  {
    forall p | p in words
      ensures PlacedOk(s1.data, s1.minalign, p)
    {
      PlacedExtends(s.data, s1.data, s.minalign, s1.minalign, p);
    }
  }

  lemma FrontWord(data: seq<byte>, m: int, w: Word, rest: seq<byte>)
    requires data == Encode(w, |data|) + rest
    requires PowerOfTwo(Width(w)) && Width(w) <= m && |data| % Width(w) == 0
    requires w.Ref? ==> w.target + 4 <= |data|
    ensures PlacedOk(data, m, At(|data|, w))
  {
  }

  lemma AddWords(data: seq<byte>, m: int, words: set<Placed>, more: set<Placed>)
    requires WordsOk(data, m, words) && WordsOk(data, m, more)
    ensures WordsOk(data, m, words + more)
  {
  }

  // ---- What stays when an operation registers nothing ------------------------

  lemma BlobExtends(data: seq<byte>, data1: seq<byte>, h: nat, b: seq<byte>)
    requires BlobOk(data, h, b) && IsSuffix(data, data1)
    ensures BlobOk(data1, h, b)
  {
    var at, at1 := |data| - h + 4, |data1| - h + 4;
    assert data1[at1..at1 + |b|] == data1[|data1| - |data|..][at..at + |b|];
  }

  lemma FieldsKeep(words: set<Placed>, words1: set<Placed>, slots: seq<nat>, fields: seq<Field>)
    requires FieldsOk(words, slots, fields) && words <= words1
    ensures FieldsOk(words1, slots, fields)
  {
    forall i | 0 <= i < |slots|
      ensures FieldOk(words1, slots[i], fields[i])
    {
      assert FieldOk(words, slots[i], fields[i]);
    }
  }

  lemma TableKeeps(log: Log, log1: Log, o: nat, t: Table)
    requires TableOk(log, o, t) && log.words <= log1.words
    requires forall v | v in log.vtables :: v in log1.vtables && log1.vtables[v] == log.vtables[v]
    ensures TableOk(log1, o, t)
  {
    FieldsKeep(log.words, log1.words, t.slots, t.fields);
  }

  lemma VectorKeeps(words: set<Placed>, words1: set<Placed>, h: nat, v: Vector)
    requires VectorOk(words, h, v) && words <= words1
    ensures VectorOk(words1, h, v)
  {
    forall i | 0 <= i < |v.elems|
      ensures ElementOk(words1, h, v, i)
    {
      assert ElementOk(words, h, v, i);
    }
  }

  lemma BlobsKeep(s: State, s1: State, log: Log, log1: Log)
    requires BlobsOk(s, log) && IsSuffix(s.data, s1.data)
    requires log1.blobs == log.blobs && log1.vectors == log.vectors
    ensures BlobsOk(s1, log1)
  {
    forall h | h in log1.blobs
      ensures BlobOk(s1.data, h, log1.blobs[h])
    {
      BlobExtends(s.data, s1.data, h, log.blobs[h]);
    }
  }

  lemma SettledKeeps(s: State, s1: State, log: Log, log1: Log)
    requires Settled(s, log) && Extends(s, s1)
    requires s1.vtables == s.vtables && s1.shared == s.shared
    requires log.words <= log1.words && log1.vtables == log.vtables && log1.tables == log.tables
    requires log1.vectors == log.vectors && log1.blobs == log.blobs
    ensures Settled(s1, log1)
  {
    BlobsKeep(s, s1, log, log1);
    forall o | o in log1.tables
      ensures o <= |s1.data| && TableOk(log1, o, log1.tables[o])
    {
      TableKeeps(log, log1, o, log.tables[o]);
    }
    forall h | h in log1.vectors
      ensures h <= |s1.data| && VectorOk(log1.words, h, log1.vectors[h])
    {
      VectorKeeps(log.words, log1.words, h, log.vectors[h]);
    }
  }
}
