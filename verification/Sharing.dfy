/**
 Vtable sharing. In a reachable state the builder's comparison of an unwritten vtable with a written
 one is exactly equality of their entry lists, and registered entry lists are pairwise different,
 so the search finds the one vtable with these entries if there is one.
 */
module Sharing {
  import opened Bits
  import opened Codec
  import opened Wrappers
  import opened Layout
  import opened Prepends
  import opened Runs
  import opened Stability
  import opened Invariants

  /** Trimming removes a tail of absent slots and nothing else. */
  lemma {:induction false} TrimIsPrefix(vt: seq<nat>)
    ensures |Trim(vt)| <= |vt| && Trim(vt) == vt[..|Trim(vt)|]
    ensures forall i :: |Trim(vt)| <= i < |vt| ==> vt[i] == 0
    ensures Trim(vt) != [] ==> Trim(vt)[|Trim(vt)| - 1] != 0
    decreases |vt|
  {
    if |vt| > 0 && vt[|vt| - 1] == 0 {
      TrimIsPrefix(vt[..|vt| - 1]);
    }
  }

  lemma ScalarReads(data: seq<byte>, m: int, p: Placed)
    requires PlacedOk(data, m, p) && p.word.Scalar? && 0 <= p.word.n < Pow256(p.word.k)
    ensures p.handle <= |data| && Get(data, |data| - p.handle, p.word.k) == p.word.n
  {
    LoadAfterStoreUnsigned(p.word.n, p.word.k);
  }

  lemma VtableHeadReads(data: seq<byte>, m: int, words: set<Placed>, v: nat, t: Vtable)
    requires WordsOk(data, m, words) && VtableOk(words, v, t)
    ensures v <= |data| && Get(data, |data| - v, 2) == 2 * (|t.entries| + 2)
  {
    Widths();
    var head := At(v, Scalar(2 * (|t.entries| + 2), 2));
    assert head in VtableWords(v, t);
    ScalarReads(data, m, head);
  }

  lemma EntryReads(data: seq<byte>, m: int, words: set<Placed>, v: nat, t: Vtable, i: nat)
    requires WordsOk(data, m, words) && VtableOk(words, v, t) && i < |t.entries|
    ensures v <= |data| && Get(data, |data| - v + 4 + 2 * i, 2) == t.entries[i]
  {
    Widths();
    VtableHeadReads(data, m, words, v, t);
    var p := At(v - 4 - 2 * i, Scalar(t.entries[i], 2));
    assert p in VtableWords(v, t);
    ScalarReads(data, m, p);
  }

  /** What a logged vtable looks like to the builder's search. */
  lemma VtableReads(data: seq<byte>, m: int, words: set<Placed>, v: nat, t: Vtable)
    requires WordsOk(data, m, words) && VtableOk(words, v, t)
    ensures VtableInBounds(data, v)
    ensures |VtableFields(data, v)| == 2 * |t.entries|
    ensures forall i :: 0 <= i < |t.entries| ==> Get(VtableFields(data, v), 2 * i, 2) == t.entries[i]
  {
    VtableHeadReads(data, m, words, v, t);
    forall i | 0 <= i < |t.entries|
      ensures Get(VtableFields(data, v), 2 * i, 2) == t.entries[i]
    {
      EntryReads(data, m, words, v, t, i);
      FieldsSlice(data, v, i);
    }
  }

  lemma FieldsSlice(data: seq<byte>, v: nat, i: nat)
    requires VtableInBounds(data, v) && 2 * i + 2 <= |VtableFields(data, v)|
    ensures Get(VtableFields(data, v), 2 * i, 2) == Get(data, |data| - v + 4 + 2 * i, 2)
  {
    var start := |data| - v;
    assert VtableFields(data, v)[2 * i..2 * i + 2] == data[start + 4 + 2 * i..start + 4 + 2 * i + 2];
  }

  /** The comparison accepts exactly equal entry lists, given that stored entries are below the object's offset. */
  lemma VtableEqualMeans(vt: seq<nat>, o: nat, b: seq<byte>, entries: seq<nat>)
    requires forall i :: 0 <= i < |vt| ==> vt[i] < o
    requires |b| == 2 * |entries|
    requires forall i :: 0 <= i < |entries| ==> Get(b, 2 * i, 2) == entries[i] && entries[i] < o
    ensures VtableEqual(vt, o, b) <==> entries == Entries(vt, o)
  {
    var mine := Entries(vt, o);
    if |vt| == |entries| {
      forall i | 0 <= i < |vt|
        ensures EntryEqual(vt[i], o, Get(b, 2 * i, 2)) <==> entries[i] == mine[i]
      {
        assert mine[i] == Entry(vt[i], o);
      }
      if VtableEqual(vt, o, b) {
        forall i | 0 <= i < |vt|
          ensures entries[i] == mine[i]
        {
          assert EntryEqual(vt[i], o, Get(b, 2 * i, 2));
        }
      }
    }
  }

  predicate Accepts(data: seq<byte>, v: nat, vt: seq<nat>, o: nat) {
    VtableInBounds(data, v) && VtableEqual(vt, o, VtableFields(data, v))
  }

  /** The search returns a registered vtable that the comparison accepts, or finds that there is none. */
  lemma {:induction false} FindMeans(data: seq<byte>, vtables: seq<nat>, vt: seq<nat>, o: nat)
    ensures var f := FindVtable(data, vtables, vt, o);
      if f == 0 then forall v | v in vtables :: !Accepts(data, v, vt, o)
      else f in vtables && Accepts(data, f, vt, o)
    decreases |vtables|
  {
    if vtables != [] {
      var last := |vtables| - 1;
      FindMeans(data, vtables[..last], vt, o);
      assert vtables == vtables[..last] + [vtables[last]];
    }
  }

  /** In a good state the comparison at any registered vtable is equality of entry lists. */
  lemma AcceptsMeans(s: State, log: Log, v: nat)
    requires WordsOk(s.data, s.minalign, log.words) && VtablesOk(s, log) && v in s.vtables
    requires forall i :: 0 <= i < |s.vtable| ==> s.vtable[i] <= |s.data|
    ensures Accepts(BeginVtable(s).data, v, Trim(s.vtable), ObjectOffset(s)) <==>
      log.vtables[v].entries == Entries(Trim(s.vtable), ObjectOffset(s))
  {
    hide LE, Zeros, AlignSize, PlacedOk, Entries, PowerOfTwo, Trim, VtableEqual, VtableFields;
    var s1, t := BeginVtable(s), log.vtables[v];
    PowersUsed();
    PrepPlaceExtends(s, 4, 0, LE(|Prep(s, 4, 0).data| + 4, 4));
    WordsExtend(s, s1, log.words);
    VtableReads(s1.data, s1.minalign, log.words, v, t);
    TrimIsPrefix(s.vtable);
    VtableEqualMeans(Trim(s.vtable), ObjectOffset(s), VtableFields(s1.data, v), t.entries);
  }

  /** Which vtable EndObject picks: the unique registered one with the object's entries, else none. */
  lemma SharedVtableMeans(s: State, log: Log)
    requires WordsOk(s.data, s.minalign, log.words) && VtablesOk(s, log)
    requires forall i :: 0 <= i < |s.vtable| ==> s.vtable[i] <= |s.data|
    ensures var entries := Entries(Trim(s.vtable), ObjectOffset(s));
      && (SharedVtable(s) == 0 ==> forall v | v in s.vtables :: log.vtables[v].entries != entries)
      && (SharedVtable(s) != 0 ==> SharedVtable(s) in s.vtables && log.vtables[SharedVtable(s)].entries == entries)
  {
    FindMeans(BeginVtable(s).data, s.vtables, Trim(s.vtable), ObjectOffset(s));
    forall v | v in s.vtables
      ensures Accepts(BeginVtable(s).data, v, Trim(s.vtable), ObjectOffset(s)) <==>
        log.vtables[v].entries == Entries(Trim(s.vtable), ObjectOffset(s))
    {
      AcceptsMeans(s, log, v);
    }
    if SharedVtable(s) != 0 {
      assert Accepts(BeginVtable(s).data, SharedVtable(s), Trim(s.vtable), ObjectOffset(s));
    }
  }
}
