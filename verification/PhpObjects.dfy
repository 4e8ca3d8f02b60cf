/**
 When the PHP builder's write-compare-rollback ending of an object gives the bytes of Go's
 compare-then-write. Go compares the field entries only, PHP also the object size.
 */
module PhpObjects {
  import opened Bits
  import opened Codec
  import opened Wrappers
  import opened Layout
  import opened Prepends
  import opened Runs
  import opened Stability
  import opened Invariants
  import opened Sharing
  import PreserveObjects
  import opened WholeRuns
  import P = PhpLayout

  // ---- Writing the vtable -------------------------------------------------------

  predicate EntriesAreShort(vt: seq<nat>, o: nat) {
    forall i :: 0 <= i < |vt| ==> P.IsShort(Entry(vt[i], o))
  }

  /** Adding entries as shorts is Go's prepending, if every entry is one. */
  lemma {:induction false} AddEntriesPrepends(s: State, vt: seq<nat>, o: nat)
    ensures P.AddEntries(s, vt, o) == if EntriesAreShort(vt, o) then Some(PrependEntries(s, vt, o)) else None
    decreases |vt|
  {
    if vt != [] {
      var last := |vt| - 1;
      assert vt == vt[..last] + [vt[last]];
      assert EntriesAreShort(vt, o) <==> EntriesAreShort(vt[..last], o) && P.IsShort(Entry(vt[last], o));
      AddEntriesPrepends(PrependScalar(s, 2, Entry(vt[last], o)), vt[..last], o);
    }
  }

  /** The vtable of `vt` can be written with signed 16-bit words. */
  predicate VtableIsShort(vt: seq<nat>, o: nat, objectStart: nat) {
    EntriesAreShort(vt, o) && P.IsShort(o - objectStart) && P.IsShort((|vt| + 2) * 2)
  }

  lemma AddVtablePrepends(s: State, vt: seq<nat>, o: nat, objectStart: nat)
    ensures P.AddVtable(s, vt, o, objectStart) ==
      if VtableIsShort(vt, o, objectStart) then Some(AppendVtable(s, vt, o, objectStart)) else None
  {
    hide PrependScalar, EntriesAreShort, PrependEntries, P.AddEntries;
    AddEntriesPrepends(s, vt, o);
  }

  // ---- Comparing vtables --------------------------------------------------------

  /** What the vtable words at handle `v` read as. */
  ghost predicate ReadsAs(data: seq<byte>, v: nat, t: Vtable) {
    && 4 + 2 * |t.entries| <= v <= |data|
    && Get(data, |data| - v, 2) == 2 * (|t.entries| + 2)
    && Get(data, |data| - v + 2, 2) == t.objectSize
    && forall i :: 0 <= i < |t.entries| ==> Get(data, |data| - v + 4 + 2 * i, 2) == t.entries[i]
  }

  lemma LoggedReadsAs(data: seq<byte>, m: int, words: set<Placed>, v: nat, t: Vtable)
    requires WordsOk(data, m, words) && VtableOk(words, v, t)
    ensures ReadsAs(data, v, t)
  {
    Widths();
    VtableHeadReads(data, m, words, v, t);
    var size := At(v - 2, Scalar(t.objectSize, 2));
    assert size in VtableWords(v, t);
    ScalarReads(data, m, size);
    forall i | 0 <= i < |t.entries|
      ensures Get(data, |data| - v + 4 + 2 * i, 2) == t.entries[i]
    {
      EntryReads(data, m, words, v, t, i);
    }
  }

  lemma ShortsOf(data: seq<byte>, a: nat, b: nat, m: nat)
    ensures P.SameShorts(data, a, b, 2 * m) <==> forall j :: 1 <= j < m ==> P.ShortsEqual(data, a, b, j)
  {
    hide P.ShortsEqual;
    assert (2 * m + 1) / 2 == m;
  }

  lemma ShortReads(data: seq<byte>, v: nat, t: Vtable, w: nat, u: Vtable, j: nat)
    requires ReadsAs(data, v, t) && ReadsAs(data, w, u) && |t.entries| == |u.entries| && 1 <= j < |t.entries| + 2
    ensures P.ShortsEqual(data, |data| - v, |data| - w, j) <==>
      if j == 1 then t.objectSize == u.objectSize else t.entries[j - 2] == u.entries[j - 2]
  {
    if j > 1 {
      assert |data| - v + 4 + 2 * (j - 2) == |data| - v + 2 * j && |data| - w + 4 + 2 * (j - 2) == |data| - w + 2 * j;
    }
  }

  lemma SameLength(data: seq<byte>, v: nat, t: Vtable, w: nat, u: Vtable)
    requires ReadsAs(data, v, t) && ReadsAs(data, w, u)
    ensures P.SameVtable(data, v, w) <==>
      |t.entries| == |u.entries| && P.SameShorts(data, |data| - v, |data| - w, 2 * (|t.entries| + 2))
  {
    hide P.SameShorts;
  }

  /** The short-by-short comparison is equality of the whole vtables, object size included. */
  lemma SameMeans(data: seq<byte>, v: nat, t: Vtable, w: nat, u: Vtable)
    requires ReadsAs(data, v, t) && ReadsAs(data, w, u)
    ensures P.SameVtable(data, v, w) <==> t == u
  {
    assert v <= |data| && w <= |data|;
    hide ReadsAs, P.SameVtable, P.SameShorts, P.ShortsEqual;
    var a, b := |data| - v, |data| - w;
    SameLength(data, v, t, w, u);
    ShortsOf(data, a, b, |t.entries| + 2);
    if |t.entries| == |u.entries| {
      forall j | 1 <= j < |t.entries| + 2
        ensures P.ShortsEqual(data, a, b, j) <==>
          if j == 1 then t.objectSize == u.objectSize else t.entries[j - 2] == u.entries[j - 2]
      {
        ShortReads(data, v, t, w, u, j);
      }
      if P.SameVtable(data, v, w) {
        assert P.ShortsEqual(data, a, b, 1);
        forall i | 0 <= i < |t.entries|
          ensures t.entries[i] == u.entries[i]
        {
          assert P.ShortsEqual(data, a, b, i + 2);
        }
        assert t.entries == u.entries;
      }
    }
  }

  lemma {:induction false} SearchMeans(data: seq<byte>, vtables: seq<nat>, i: nat)
    requires i <= |vtables|
    ensures var f := P.SearchFrom(data, vtables, i);
      if f == 0 then forall j :: i <= j < |vtables| ==> !P.SameVtable(data, vtables[j], |data|)
      else f in vtables && P.SameVtable(data, f, |data|)
    decreases |vtables| - i
  {
    if i < |vtables| {
      SearchMeans(data, vtables, i + 1);
    }
  }

  // ---- How an object can end ------------------------------------------------------

  /** The state after an object ends with the vtable `v`, new or an earlier one. */
  function EndedWith(s: State, v: nat, fresh_: bool): State {
    s.(data := (if fresh_ then VtableBytes(Trim(s.vtable), ObjectOffset(s), s.objectEnd) else [])
         + LE(v - ObjectOffset(s), 4) + Zeros(PadFor(s, 4, 0)) + s.data,
       minalign := if 4 > s.minalign then 4 else s.minalign,
       vtables := if fresh_ then s.vtables + [v] else s.vtables,
       vtable := [], nested := false)
  }

  function NewVtableAt(s: State): nat {
    ObjectOffset(s) + 4 + 2 * |Trim(s.vtable)|
  }

  lemma GoEnds(s: State)
    ensures var g := SharedVtable(s);
      WriteVtable(s).(nested := false) == EndedWith(s, if g == 0 then NewVtableAt(s) else g, g == 0)
  {
    hide LE, Zeros, VtableBytes, WriteVtable, AlignSize, FindVtable, Trim;
    EndObjectPrepends(s);
  }

  /** The vtable that the object would get of its own. */
  function OwnVtable(s: State): Vtable {
    Vtable(ObjectOffset(s) - s.objectEnd, Entries(Trim(s.vtable), ObjectOffset(s)))
  }

  /** The PHP builder's state with the new vtable at the front. */
  function Trial(s: State): State {
    s.(data := VtableBytes(Trim(s.vtable), ObjectOffset(s), s.objectEnd)
         + (LE(0, 4) + (Zeros(PadFor(s, 4, 0)) + s.data)),
       minalign := if 4 > s.minalign then 4 else s.minalign)
  }

  lemma BeginsAt(s: State)
    ensures PrependScalar(s, 4, 0) == s.(
      data := LE(0, 4) + (Zeros(PadFor(s, 4, 0)) + s.data), minalign := if 4 > s.minalign then 4 else s.minalign)
    ensures |PrependScalar(s, 4, 0).data| == ObjectOffset(s)
  {
  }

  lemma PhpTries(s: State)
    ensures |PrependScalar(s, 4, 0).data| == ObjectOffset(s)
    ensures P.AddVtable(PrependScalar(s, 4, 0), Trim(s.vtable), ObjectOffset(s), s.objectEnd) ==
      if VtableIsShort(Trim(s.vtable), ObjectOffset(s), s.objectEnd) then Some(Trial(s)) else None
  {
    hide LE, Zeros, VtableBytes, PrependScalar, AlignSize, Trim, AppendVtable, P.AddVtable, EntriesAreShort;
    BeginsAt(s);
    ObjectOffsetAligned(s);
    var s1 := PrependScalar(s, 4, 0);
    AddVtablePrepends(s1, Trim(s.vtable), ObjectOffset(s), s.objectEnd);
    AppendVtableClosed(s1, Trim(s.vtable), ObjectOffset(s), s.objectEnd);
  }

  lemma RollsBack(s: State, v: nat)
    requires P.IsInt(v - ObjectOffset(s))
    ensures |Trial(s).data| == NewVtableAt(s)
    ensures P.RollBack(Trial(s), ObjectOffset(s), v) == Some(EndedWith(s, v, false))
  {
    hide LE, Zeros, VtableBytes, AlignSize, Trim;
    var word, rest := LE(v - ObjectOffset(s), 4), Zeros(PadFor(s, 4, 0)) + s.data;
    var kept := LE(0, 4) + rest;
    assert Trial(s).data[|Trial(s).data| - ObjectOffset(s)..] == kept;
    assert Put(kept, 0, word) == word + rest;
    assert [] + word == word;
    Reassociate(word, Zeros(PadFor(s, 4, 0)), s.data);
  }

  lemma Keeps(s: State)
    requires P.IsInt(NewVtableAt(s) - ObjectOffset(s))
    ensures |Trial(s).data| == NewVtableAt(s)
    ensures P.Keep(Trial(s), ObjectOffset(s)) == Some(EndedWith(s, NewVtableAt(s), true))
  {
    hide LE, Zeros, VtableBytes, AlignSize, Trim;
    var p := VtableBytes(Trim(s.vtable), ObjectOffset(s), s.objectEnd);
    var rest := Zeros(PadFor(s, 4, 0)) + s.data;
    PatchPrefix(p, LE(0, 4), rest, NewVtableAt(s));
    Reassociate(p + LE(NewVtableAt(s) - ObjectOffset(s), 4), Zeros(PadFor(s, 4, 0)), s.data);
  }

  // ---- Which vtable PHP takes ----------------------------------------------------

  /** What holds of the open object, and of the registered vtables, in a reachable state. */
  ghost predicate Endable(s: State, log: Log) {
    && WordsOk(s.data, s.minalign, log.words) && VtablesOk(s, log) && PowerOfTwo(s.minalign)
    && log.open.InObject? && ObjectOk(s, log.words, log.open.fields)
    && ObjectOffset(s) - s.objectEnd < 0x1_0000
    && ObjectOffset(s) < 0x8000_0000
  }

  lemma SlotsBelow(s: State, log: Log)
    requires Endable(s, log)
    ensures PreserveObjects.TrimmedTo(Trim(s.vtable), s.vtable) && |Trim(s.vtable)| < 0x7ffe
    ensures PreserveObjects.Endable(s, log, ObjectOffset(s))
    ensures forall i :: 0 <= i < |s.vtable| ==> s.vtable[i] <= |s.data|
    ensures forall i ::
      0 <= i < |Trim(s.vtable)| ==> Trim(s.vtable)[i] == 0 || s.objectEnd <= Trim(s.vtable)[i] <= |s.data|
  {
    TrimIsPrefix(s.vtable);
    forall i | 0 <= i < |s.vtable|
      ensures s.vtable[i] <= |s.data|
    {
      assert s.vtable[i] == 0 || s.vtable[i] <= |s.data|;
    }
  }

  lemma OwnEntries(s: State, log: Log)
    requires Endable(s, log)
    ensures |OwnVtable(s).entries| == |Trim(s.vtable)|
    ensures forall i :: 0 <= i < |OwnVtable(s).entries| ==>
      var e := OwnVtable(s).entries[i];
      e == Entry(Trim(s.vtable)[i], ObjectOffset(s)) && e < 0x1_0000 && e < ObjectOffset(s)
  {
    hide Endable, Trim, ObjectOk, ObjectOffset, PreserveObjects.Endable;
    SlotsBelow(s, log);
    forall i | 0 <= i < |OwnVtable(s).entries|
      ensures OwnVtable(s).entries[i] == Entry(Trim(s.vtable)[i], ObjectOffset(s))
      ensures OwnVtable(s).entries[i] < 0x1_0000 && OwnVtable(s).entries[i] < ObjectOffset(s)
    {
      PreserveObjects.EntryFits(s, log, ObjectOffset(s), Trim(s.vtable), i);
    }
  }

  /** Object size and vtable size are the only words that may not fit. */
  lemma ShortMeans(s: State, log: Log)
    requires Endable(s, log)
    ensures VtableIsShort(Trim(s.vtable), ObjectOffset(s), s.objectEnd) <==>
      ObjectOffset(s) - s.objectEnd < 0x8000 && |Trim(s.vtable)| < 0x3ffe
  {
    hide Trim, WordsOk, VtablesOk, FieldsOk, ObjectOffset;
    SlotsBelow(s, log);
    OwnEntries(s, log);
    assert s.objectEnd <= ObjectOffset(s) by { hide *; Longer(s, log); }
    if ObjectOffset(s) - s.objectEnd < 0x8000 {
      forall i | 0 <= i < |Trim(s.vtable)|
        ensures P.IsShort(Entry(Trim(s.vtable)[i], ObjectOffset(s)))
      {
        assert OwnVtable(s).entries[i] == Entry(Trim(s.vtable)[i], ObjectOffset(s));
      }
    }
  }

  lemma Longer(s: State, log: Log)
    requires Endable(s, log)
    ensures s.objectEnd <= ObjectOffset(s) && |s.data| + 4 <= ObjectOffset(s)
  {
  }

  lemma TrialLength(s: State)
    ensures |Trial(s).data| == NewVtableAt(s) && NewVtableAt(s) % 2 == 0
  {
    ObjectOffsetAligned(s);
    EvenSum(|Trim(s.vtable)| + 2, ObjectOffset(s));
    BeginsAt(s);
  }

  lemma OwnVtableOk(s: State, log: Log)
    requires Endable(s, log)
    ensures NewVtableAt(s) >= 4 + 2 * |OwnVtable(s).entries|
    ensures VtableOk(VtableWords(NewVtableAt(s), OwnVtable(s)), NewVtableAt(s), OwnVtable(s))
  {
    hide Trim, ObjectOffset, WordsOk, VtablesOk, ObjectOk, PreserveObjects.Endable;
    SlotsBelow(s, log);
    OwnEntries(s, log);
    Longer(s, log);
  }

  lemma TrialReads(s: State, log: Log)
    requires Endable(s, log)
    ensures |Trial(s).data| == NewVtableAt(s) && ReadsAs(Trial(s).data, NewVtableAt(s), OwnVtable(s))
  {
    hide LE, Zeros, Trim, ObjectOffset, Endable, PlacedOk, VtableBytes, VtableOk, VtableWords, NewVtableAt, ReadsAs,
      Entries;
    var t, w, data := OwnVtable(s), NewVtableAt(s), Trial(s).data;
    OwnEntries(s, log);
    OwnVtableOk(s, log);
    TrialLength(s);
    PreserveObjects.NewVtableWords(data, 4, Trim(s.vtable), ObjectOffset(s), s.objectEnd,
                                   LE(0, 4) + (Zeros(PadFor(s, 4, 0)) + s.data), t);
    LoggedReadsAs(data, 4, VtableWords(w, t), w, t);
  }

  lemma TrialExtends(s: State)
    ensures Extends(s, Trial(s))
  {
    hide LE, Zeros, Trim, ObjectOffset, VtableBytes, AlignSize;
    PowersUsed();
    var front := VtableBytes(Trim(s.vtable), ObjectOffset(s), s.objectEnd) + (LE(0, 4) + Zeros(PadFor(s, 4, 0)));
    PrependedIsSuffix(front, s.data);
    assert Trial(s).data == front + s.data;
  }

  lemma RegisteredReads(s: State, log: Log, v: nat)
    requires Endable(s, log) && v in s.vtables
    ensures v in log.vtables && v >= 4 && v <= |s.data| && ReadsAs(Trial(s).data, v, log.vtables[v])
  {
    hide Trial, PlacedOk, ObjectOk, ReadsAs, Extends, VtableWords, NewVtableAt, ObjectOffset;
    TrialExtends(s);
    WordsExtend(s, Trial(s), log.words);
    LoggedReadsAs(Trial(s).data, Trial(s).minalign, log.words, v, log.vtables[v]);
  }

  /** A registered vtable that is the same word for word, object size included. */
  ghost predicate IsOwn(s: State, log: Log, v: nat) {
    v in s.vtables && v in log.vtables && log.vtables[v] == OwnVtable(s)
  }

  ghost predicate IsFound(s: State, log: Log, f: nat) {
    if f == 0 then forall v :: !IsOwn(s, log, v) else IsOwn(s, log, f)
  }

  /** PHP's search finds a vtable that is the same as the new one, if there is one. */
  lemma PhpFinds(s: State, log: Log)
    requires Endable(s, log)
    ensures var f := P.SearchFrom(Trial(s).data, s.vtables, 0);
      IsFound(s, log, f) && (f != 0 ==> 4 <= f <= |s.data|)
  {
    hide Endable, Trial, OwnVtable, ReadsAs, NewVtableAt, P.SameVtable;
    TrialReads(s, log);
    SearchMeans(Trial(s).data, s.vtables, 0);
    forall i | 0 <= i < |s.vtables|
      ensures s.vtables[i] in log.vtables && 4 <= s.vtables[i] <= |s.data|
      ensures P.SameVtable(Trial(s).data, s.vtables[i], NewVtableAt(s)) <==> log.vtables[s.vtables[i]] == OwnVtable(s)
    {
      RegisteredReads(s, log, s.vtables[i]);
      SameMeans(Trial(s).data, s.vtables[i], log.vtables[s.vtables[i]], NewVtableAt(s), OwnVtable(s));
    }
  }

  lemma PhpSettles(s: State, log: Log)
    requires Endable(s, log)
    ensures var f := P.SearchFrom(Trial(s).data, s.vtables, 0);
      |Trial(s).data| == NewVtableAt(s) && IsFound(s, log, f)
      && P.Settle(Trial(s), ObjectOffset(s)) == Some(EndedWith(s, if f == 0 then NewVtableAt(s) else f, f == 0))
  {
    hide WordsOk, VtablesOk, ObjectOk, IsOwn, LE, Zeros, EndedWith, P.Keep, P.RollBack, Trim;
    PhpFinds(s, log);
    Longer(s, log);
    SlotsBelow(s, log);
    var f := P.SearchFrom(Trial(s).data, s.vtables, 0);
    if f == 0 {
      Keeps(s);
    } else {
      RollsBack(s, f);
    }
  }

  /** The end of an object in PHP: an exception, an earlier identical vtable, or a new one. */
  lemma PhpEnds(s: State, log: Log)
    requires Endable(s, log)
    ensures !VtableIsShort(Trim(s.vtable), ObjectOffset(s), s.objectEnd) ==> P.EndState(s) == None
    ensures var f := P.SearchFrom(Trial(s).data, s.vtables, 0);
      && IsFound(s, log, f)
      && (VtableIsShort(Trim(s.vtable), ObjectOffset(s), s.objectEnd) ==>
          P.EndState(s) == Some(EndedWith(s, if f == 0 then NewVtableAt(s) else f, f == 0)))
  {
    hide WordsOk, VtablesOk, ObjectOk, IsOwn, LE, Zeros, EndedWith, P.Settle, VtableIsShort, PrependScalar, P.AddVtable,
      Trim;
    PhpTries(s);
    PhpSettles(s, log);
  }

  // ---- Agreement -------------------------------------------------------------------

  /** No registered vtable has the object's entries with another object size. */
  ghost predicate SizesAgree(s: State, log: Log) {
    forall v | v in s.vtables && v in log.vtables ::
      log.vtables[v].entries == OwnVtable(s).entries ==> log.vtables[v].objectSize == OwnVtable(s).objectSize
  }

  lemma LongerDiffers(s: State, v: nat, w: nat)
    ensures EndedWith(s, v, true) != EndedWith(s, w, false)
  {
    hide LE, Zeros, AlignSize, Trim;
    assert |EndedWith(s, v, true).data| == |EndedWith(s, w, false).data| + 4 + 2 * |Trim(s.vtable)|;
  }

  /** The registered vtable with the object's entries, if there is one. */
  ghost predicate IsShared(s: State, log: Log, g: nat) {
    if g == 0 then forall v | v in s.vtables && v in log.vtables :: log.vtables[v].entries != OwnVtable(s).entries
    else g in s.vtables && g in log.vtables && log.vtables[g].entries == OwnVtable(s).entries
  }

  lemma FoundIsShared(s: State, log: Log, f: nat, g: nat)
    requires VtablesOk(s, log) && IsFound(s, log, f) && IsShared(s, log, g)
    ensures f != 0 ==> f == g && SizesAgree(s, log)
    ensures g == 0 ==> SizesAgree(s, log)
    ensures f == 0 && g != 0 ==> !SizesAgree(s, log)
  {
    hide OwnVtable, VtableOk;
    if f != 0 {
      OneVtable(s, log, f, g);
      forall v | v in s.vtables && v in log.vtables && log.vtables[v].entries == OwnVtable(s).entries
        ensures log.vtables[v].objectSize == OwnVtable(s).objectSize
      {
        OneVtable(s, log, f, v);
      }
    } else if g != 0 {
      assert !IsOwn(s, log, g);
    }
  }

  /** Go and PHP differ only when Go shares a vtable that PHP does not. */
  lemma EndingsCompared(s: State, log: Log, f: nat, g: nat)
    requires VtablesOk(s, log) && IsFound(s, log, f) && IsShared(s, log, g)
    ensures EndedWith(s, if f == 0 then NewVtableAt(s) else f, f == 0)
      == EndedWith(s, if g == 0 then NewVtableAt(s) else g, g == 0)
      <==> SizesAgree(s, log)
  {
    hide EndedWith, VtablesOk, IsFound, IsShared, NewVtableAt, SizesAgree;
    FoundIsShared(s, log, f, g);
    if f == 0 && g != 0 {
      LongerDiffers(s, NewVtableAt(s), g);
    }
  }

  lemma GoShares(s: State, log: Log)
    requires Endable(s, log)
    ensures VtablesOk(s, log) && IsShared(s, log, SharedVtable(s))
  {
    hide WordsOk, ObjectOk, Trim, ObjectOffset, FindVtable, Entries;
    SlotsBelow(s, log);
    SharedVtableMeans(s, log);
  }

  /** Both builders end the object the same way exactly when the sizes are short and no sizes collide. */
  lemma EndingsAgree(s: State, log: Log)
    requires Endable(s, log)
    ensures P.EndState(s) == Some(WriteVtable(s).(nested := false)) <==>
      ObjectOffset(s) - s.objectEnd < 0x8000 && |Trim(s.vtable)| < 0x3ffe && SizesAgree(s, log)
  {
    hide *;
    GoShares(s, log);
    GoEnds(s);
    PhpEnds(s, log);
    ShortMeans(s, log);
    EndingsCompared(s, log, P.SearchFrom(Trial(s).data, s.vtables, 0), SharedVtable(s));
  }
}
