/** EndObject keeps the invariant and adds the ended table to it. */
module PreserveObjects {
  import opened Bits
  import opened Codec
  import opened Wrappers
  import opened Layout
  import opened Prepends
  import opened Runs
  import opened Stability
  import opened Invariants
  import opened Sharing

  /** How an object ended: its handle, its vtable's handle, and the data before any new vtable. */
  datatype Ending = Ending(o: nat, v: nat, vt: seq<nat>, shared: bool, mid: seq<byte>)

  ghost predicate TrimmedTo(vt: seq<nat>, slots: seq<nat>) {
    |vt| <= |slots| && vt == slots[..|vt|] && forall i :: |vt| <= i < |slots| ==> slots[i] == 0
  }

  ghost predicate Describes(e: Ending, s: State, s1: State) {
    && |e.mid| == e.o && e.o % 4 == 0 && e.o % 2 == 0 && e.o >= |s.data| + 4
    && e.mid[..4] == LE(e.v - e.o, 4) && IsSuffix(s.data, e.mid)
    && TrimmedTo(e.vt, s.vtable)
    && s1.data == (if e.shared then [] else VtableBytes(e.vt, e.o, s.objectEnd)) + e.mid
    && (!e.shared ==> e.v == e.o + 4 + 2 * |e.vt|)
    && s1 == s.(data := s1.data, minalign := if 4 > s.minalign then 4 else s.minalign,
                vtables := if e.shared then s.vtables else s.vtables + [e.v], vtable := [])
  }

  function EndingAt(s: State, o: nat, v: nat, vt: seq<nat>, shared: bool, z: seq<byte>): Ending {
    Ending(o, v, vt, shared, LE(v - o, 4) + (z + s.data))
  }

  function EndingOf(s: State): Ending {
    EndingAt(s, ObjectOffset(s), VtableOf(s), Trim(s.vtable), SharedVtable(s) != 0, Zeros(PadFor(s, 4, 0)))
  }

  lemma Associates(v: seq<byte>, w: seq<byte>, z: seq<byte>, d: seq<byte>)
    ensures v + w + z + d == v + (w + (z + d))
    ensures IsSuffix(d, w + (z + d))
  {
    assert (w + (z + d))[|w| + |z|..] == d;
  }

  lemma DescribeAt(s: State, s1: State, o: nat, v: nat, vt: seq<nat>, shared: bool, z: seq<byte>)
    requires |z| + |s.data| + 4 == o && o % 4 == 0 && o % 2 == 0 && TrimmedTo(vt, s.vtable)
    requires !shared ==> v == o + 4 + 2 * |vt|
    requires s1 == s.(
      data := (if shared then [] else VtableBytes(vt, o, s.objectEnd)) + LE(v - o, 4) + z + s.data,
      minalign := if 4 > s.minalign then 4 else s.minalign,
      vtables := if shared then s.vtables else s.vtables + [v], vtable := [])
    ensures Describes(EndingAt(s, o, v, vt, shared, z), s, s1)
  {
    hide LE, VtableBytes;
    Associates(if shared then [] else VtableBytes(vt, o, s.objectEnd), LE(v - o, 4), z, s.data);
  }

  lemma Describe(s: State)
    ensures Describes(EndingOf(s), s, WriteVtable(s))
  {
    ObjectOffsetAligned(s);
    TrimIsPrefix(s.vtable);
    EndObjectPrepends(s);
    DescribeAt(s, WriteVtable(s), ObjectOffset(s), VtableOf(s), Trim(s.vtable), SharedVtable(s) != 0,
               Zeros(PadFor(s, 4, 0)));
  }

  /** What holds of the object when EndObject is called. */
  ghost predicate Endable(s: State, log: Log, o: nat) {
    && log.open.InObject? && ObjectOk(s, log.words, log.open.fields)
    && PowerOfTwo(s.minalign) && |s.data| < o && o - s.objectEnd < 0x1_0000
  }

  /** Stored entries fit sixteen bits and are below the object's own offset. */
  lemma EntryFits(s: State, log: Log, o: nat, vt: seq<nat>, i: nat)
    requires Endable(s, log, o) && TrimmedTo(vt, s.vtable) && i < |vt|
    ensures vt[i] == s.vtable[i] <= |s.data|
    ensures Entries(vt, o)[i] == Entry(vt[i], o) < 0x1_0000 && Entries(vt, o)[i] < o
  {
    assert s.vtable[i] == 0 || s.objectEnd <= s.vtable[i] <= |s.data|;
  }

  lemma EntriesMatchSlots(s: State, log: Log, o: nat, vt: seq<nat>)
    requires Endable(s, log, o) && TrimmedTo(vt, s.vtable)
    ensures SlotsMatch(Entries(vt, o), s.vtable, o)
  {
    forall i | 0 <= i < |s.vtable|
      ensures s.vtable[i] < o && EntryOr0(Entries(vt, o), i) == Entry(s.vtable[i], o)
    {
      assert s.vtable[i] == 0 || s.vtable[i] <= |s.data|;
      if i < |vt| {
        EntryFits(s, log, o, vt, i);
      }
    }
  }

  // ---- The words EndObject writes ---------------------------------------------

  lemma EvenBelow(v: nat, i: nat)
    requires v % 2 == 0 && 2 * i <= v
    ensures (v - 2 * i) % 2 == 0
  {
  }

  lemma VtableWordAt(data: seq<byte>, m: int, vt: seq<nat>, o: nat, oe: nat, rest: seq<byte>, i: nat)
    requires data == VtableBytes(vt, o, oe) + rest && |data| % 2 == 0 && m >= 2 && i < |vt|
    ensures PlacedOk(data, m, At(|data| - 4 - 2 * i, Scalar(Entry(vt[i], o), 2)))
  {
    PowersUsed();
    EvenBelow(|data|, i + 2);
    EntryBytesAt(vt, o, i);
    assert data[4 + 2 * i..6 + 2 * i] == EntryBytes(vt, o)[2 * i..2 * i + 2];
  }

  lemma VtableHeadWords(data: seq<byte>, m: int, vt: seq<nat>, o: nat, oe: nat, rest: seq<byte>)
    requires data == VtableBytes(vt, o, oe) + rest && |data| % 2 == 0 && m >= 2
    ensures PlacedOk(data, m, At(|data|, Scalar(2 * (|vt| + 2), 2)))
    ensures PlacedOk(data, m, At(|data| - 2, Scalar(o - oe, 2)))
  {
    PowersUsed();
    EvenBelow(|data|, 1);
    assert data[0..2] == LE((|vt| + 2) * 2, 2);
    assert data[2..4] == LE(o - oe, 2);
  }

  lemma NewVtableWords(data: seq<byte>, m: int, vt: seq<nat>, o: nat, oe: nat, rest: seq<byte>, t: Vtable)
    requires data == VtableBytes(vt, o, oe) + rest && |data| % 2 == 0 && m >= 2
    requires t.objectSize == o - oe && |t.entries| == |vt|
    requires forall i :: 0 <= i < |vt| ==> t.entries[i] == Entry(vt[i], o)
    ensures WordsOk(data, m, VtableWords(|data|, t))
  {
    VtableHeadWords(data, m, vt, o, oe, rest);
    forall p | p in VtableWords(|data|, t)
      ensures PlacedOk(data, m, p)
    {
      if p != At(|data|, Scalar(2 * (|vt| + 2), 2)) && p != At(|data| - 2, Scalar(o - oe, 2)) {
        var i :| 0 <= i < |t.entries| && p == At(|data| - 4 - 2 * i, Scalar(t.entries[i], 2));
        VtableWordAt(data, m, vt, o, oe, rest, i);
      }
    }
  }

  function LogEnd(log: Log, s: State, e: Ending): Log {
    EndedTableAt(log, s, e.o, e.v, e.vt, e.shared)
  }

  lemma OffsetWord(e: Ending, s: State, s1: State)
    requires Describes(e, s, s1)
    ensures PlacedOk(s1.data, s1.minalign, At(e.o, Scalar(e.v - e.o, 4)))
  {
    PowersUsed();
    var p := At(e.o, Scalar(e.v - e.o, 4));
    assert PlacedOk(e.mid, s1.minalign, p);
    PrependedIsSuffix(if e.shared then [] else VtableBytes(e.vt, e.o, s.objectEnd), e.mid);
    PlacedExtends(e.mid, s1.data, s1.minalign, s1.minalign, p);
  }

  lemma VtableWordsOk(e: Ending, s: State, s1: State, log: Log)
    requires Describes(e, s, s1) && Endable(s, log, e.o) && !e.shared
    ensures e.v == |s1.data|
    ensures WordsOk(s1.data, s1.minalign, VtableWords(e.v, Vtable(e.o - s.objectEnd, Entries(e.vt, e.o))))
  {
    var t := Vtable(e.o - s.objectEnd, Entries(e.vt, e.o));
    EvenSum(|e.vt| + 2, e.o);
    forall i | 0 <= i < |e.vt|
      ensures t.entries[i] == Entry(e.vt[i], e.o)
    {
      EntryFits(s, log, e.o, e.vt, i);
    }
    NewVtableWords(s1.data, s1.minalign, e.vt, e.o, s.objectEnd, e.mid, t);
  }

  lemma LogEndWords(log: Log, s: State, e: Ending)
    requires !e.shared && e.v >= 4 + 2 * |e.vt|
    ensures LogEnd(log, s, e).words == log.words + {At(e.o, Scalar(e.v - e.o, 4))}
      + VtableWords(e.v, Vtable(e.o - s.objectEnd, Entries(e.vt, e.o)))
  {
  }

  lemma EndObjectWords(e: Ending, s: State, s1: State, log: Log)
    requires WordsOk(s.data, s.minalign, log.words) && Describes(e, s, s1) && Extends(s, s1) && Endable(s, log, e.o)
    ensures WordsOk(s1.data, s1.minalign, LogEnd(log, s, e).words)
  {
    var p := At(e.o, Scalar(e.v - e.o, 4));
    WordsExtend(s, s1, log.words);
    OffsetWord(e, s, s1);
    AddWords(s1.data, s1.minalign, log.words, {p});
    if e.shared {
      assert LogEnd(log, s, e).words == log.words + {p};
    } else {
      var more := VtableWords(e.v, Vtable(e.o - s.objectEnd, Entries(e.vt, e.o)));
      VtableWordsOk(e, s, s1, log);
      AddWords(s1.data, s1.minalign, log.words + {p}, more);
      LogEndWords(log, s, e);
    }
  }

  // ---- The vtables and tables ---------------------------------------------------

  lemma NewVtableOk(e: Ending, s: State, s1: State, log: Log)
    requires Describes(e, s, s1) && Endable(s, log, e.o) && !e.shared
    ensures VtableOk(LogEnd(log, s, e).words, e.v, Vtable(e.o - s.objectEnd, Entries(e.vt, e.o)))
  {
    var t := Vtable(e.o - s.objectEnd, Entries(e.vt, e.o));
    forall i | 0 <= i < |t.entries|
      ensures t.entries[i] < 0x1_0000 && t.entries[i] < e.v
    {
      EntryFits(s, log, e.o, e.vt, i);
    }
  }

  /** The vtable that the object gets has the object's entries. */
  ghost predicate Chosen(e: Ending, s: State, log: Log) {
    if e.shared then e.v in s.vtables && e.v in log.vtables && log.vtables[e.v].entries == Entries(e.vt, e.o)
    else forall v | v in s.vtables :: v in log.vtables && log.vtables[v].entries != Entries(e.vt, e.o)
  }

  /** Registered vtables stay good, and registered entry lists stay pairwise different. */
  lemma EndObjectVtables(e: Ending, s: State, s1: State, log: Log)
    requires VtablesOk(s, log) && Describes(e, s, s1) && Endable(s, log, e.o) && Chosen(e, s, log)
    ensures VtablesOk(s1, LogEnd(log, s, e))
    ensures forall v | v in log.vtables ::
      v in LogEnd(log, s, e).vtables && LogEnd(log, s, e).vtables[v] == log.vtables[v]
    ensures e.v in LogEnd(log, s, e).vtables && LogEnd(log, s, e).vtables[e.v].entries == Entries(e.vt, e.o)
  {
    hide LE, VtableBytes, VtableWords, PlacedOk, Zeros, PowerOfTwo, Entries, Trim;
    var log1 := LogEnd(log, s, e);
    if !e.shared {
      NewVtableOk(e, s, s1, log);
    }
    forall v | v in log1.vtables
      ensures v <= |s1.data| && VtableOk(log1.words, v, log1.vtables[v])
    {
      if v in log.vtables {
        assert VtableOk(log.words, v, log.vtables[v]);
      }
    }
  }

  lemma NewTableOk(e: Ending, s: State, s1: State, log: Log)
    requires log.open.InObject? && VtablesOk(s, log)
    requires Describes(e, s, s1) && Endable(s, log, e.o) && Chosen(e, s, log)
    ensures TableOk(LogEnd(log, s, e), e.o, Table(e.v, s.vtable, log.open.fields))
  {
    hide LE, VtableBytes, Chosen, VtablesOk, VtableOk, SlotsMatch, FieldOk, Entries, VtableWords;
    var log1 := LogEnd(log, s, e);
    EndObjectVtables(e, s, s1, log);
    EntriesMatchSlots(s, log, e.o, e.vt);
    FieldsKeep(log.words, log1.words, s.vtable, log.open.fields);
  }

  lemma EndObjectTables(e: Ending, s: State, s1: State, log: Log)
    requires VtablesOk(s, log) && TablesOk(s, log)
    requires Describes(e, s, s1) && Endable(s, log, e.o) && Chosen(e, s, log)
    ensures TablesOk(s1, LogEnd(log, s, e))
  {
    var log1 := LogEnd(log, s, e);
    EndObjectVtables(e, s, s1, log);
    NewTableOk(e, s, s1, log);
    assert log1.tables == log.tables[e.o := Table(e.v, s.vtable, log.open.fields)];
    assert e.o <= |s1.data|;
    forall o | o in log1.tables
      ensures o <= |s1.data| && TableOk(log1, o, log1.tables[o])
    {
      if o != e.o {
        TableKeeps(log, log1, o, log.tables[o]);
      }
    }
  }

  lemma EndingKeepsGood(e: Ending, r: Run, s1: State, room: nat)
    requires Good(r) && Endable(r.st, r.log, e.o) && Chosen(e, r.st, r.log)
    requires Describes(e, r.st, s1) && Extends(r.st, s1)
    ensures Good(Run(s1.(nested := false), LogEnd(r.log, r.st, e).(room := room)))
  {
    hide LE, VtableBytes, Chosen, VtableOk, SlotsMatch, FieldOk, Entries, VtableWords, PlacedOk, BlobOk, ElementOk,
      TableOk, VectorOk, PowerOfTwo;
    var s, log := r.st, r.log;
    var s2, log1 := s1.(nested := false), LogEnd(log, s, e).(room := room);
    EndObjectWords(e, s, s1, log);
    EndObjectVtables(e, s, s1, log);
    EndObjectTables(e, s, s1, log);
    BlobsKeep(s, s2, log, log1);
    forall h | h in log1.vectors
      ensures h <= |s2.data| && VectorOk(log1.words, h, log1.vectors[h])
    {
      VectorKeeps(log.words, log1.words, h, log.vectors[h]);
    }
    forall o | o in log1.tables
      ensures o <= |s2.data| && TableOk(log1, o, log1.tables[o])
    {
      TableKeeps(LogEnd(log, s, e), log1, o, log1.tables[o]);
    }
  }

  lemma EndObjectKeepsGood(r: Run, room: nat)
    requires Good(r) && Bracketed(r, EndObjectOp)
    ensures Good(Run(WriteVtable(r.st).(nested := false), EndedTable(r.log, r.st).(room := room)))
  {
    var s, log := r.st, r.log;
    Describe(s);
    EndObjectExtends(s);
    forall i | 0 <= i < |s.vtable|
      ensures s.vtable[i] <= |s.data|
    {
      assert s.vtable[i] == 0 || s.vtable[i] <= |s.data|;
    }
    SharedVtableMeans(s, log);
    EndingKeepsGood(EndingOf(s), r, WriteVtable(s), room);
  }
}
