/** Vectors, strings and the Finish variants keep the invariant. */
module PreserveVectors {
  import opened Bits
  import opened Codec
  import opened Wrappers
  import opened Layout
  import opened Prepends
  import opened Runs
  import opened Stability
  import opened Invariants
  import opened Preservation

  // ---- Adding one vector to a settled log -----------------------------------

  lemma SettledAddsVector(s: State, s1: State, log: Log, log1: Log, h: nat)
    requires Settled(s, log) && Extends(s, s1) && |s.data| < h <= |s1.data|
    requires s1.vtables == s.vtables && s1.shared == s.shared
    requires log.words <= log1.words && log1.vtables == log.vtables && log1.tables == log.tables
    requires h in log1.vectors && log1.vectors == log.vectors[h := log1.vectors[h]]
    requires VectorOk(log1.words, h, log1.vectors[h])
    requires log1.blobs == log.blobs || (h in log1.blobs && log1.blobs == log.blobs[h := log1.blobs[h]])
    requires h in log1.blobs ==> BlobOk(s1.data, h, log1.blobs[h]) && log1.vectors[h].count <= |log1.blobs[h]|
    ensures Settled(s1, log1)
  {
    hide PlacedOk, VtableWords, TableOk, ElementOk, BlobOk, PowerOfTwo, FieldsOk, SlotsMatch;
    forall o | o in log1.tables
      ensures o <= |s1.data| && TableOk(log1, o, log1.tables[o])
    {
      TableKeeps(log, log1, o, log.tables[o]);
    }
    forall h' | h' in log1.vectors
      ensures h' <= |s1.data| && VectorOk(log1.words, h', log1.vectors[h'])
    {
      if h' != h {
        VectorKeeps(log.words, log1.words, h', log.vectors[h']);
      }
    }
    forall h' | h' in log1.blobs
      ensures BlobOk(s1.data, h', log1.blobs[h']) && h' in log1.vectors && log1.vectors[h'].count <= |log1.blobs[h']|
    {
      if h' != h {
        BlobExtends(s.data, s1.data, h', log.blobs[h']);
      }
    }
  }

  /** A vector whose length word is the front of the data. */
  lemma EndedKeepsGood(r: Run, s1: State, log1: Log, h: nat)
    requires Good(r) && Extends(r.st, s1) && |r.st.data| < h == |s1.data| && !s1.nested
    requires s1.vtables == r.st.vtables && s1.shared == r.st.shared
    requires WordsOk(s1.data, s1.minalign, log1.words) && r.log.words <= log1.words
    requires log1.vtables == r.log.vtables && log1.tables == r.log.tables && log1.open == Closed
    requires h in log1.vectors && log1.vectors == r.log.vectors[h := log1.vectors[h]]
    requires VectorOk(log1.words, h, log1.vectors[h])
    requires log1.blobs == r.log.blobs || (h in log1.blobs && log1.blobs == r.log.blobs[h := log1.blobs[h]])
    requires h in log1.blobs ==> BlobOk(s1.data, h, log1.blobs[h]) && log1.vectors[h].count <= |log1.blobs[h]|
    ensures Good(Run(s1, log1))
  {
    SettledAddsVector(r.st, s1, r.log, log1, h);
  }

  // ---- StartVector and EndVector ---------------------------------------------

  lemma TwoPrepsAlign(s: State, m: nat, alignment: pos)
    requires PowerOfTwo(alignment)
    ensures var s1 := Prep(Prep(s, 4, m), alignment, m);
      (|s1.data| + m) % 4 == 0 && (|s1.data| + m) % alignment == 0
  {
    PowersUsed();
    var s0 := Prep(s, 4, m);
    PrepAligns(s, 4, m);
    PrepAligns(s0, alignment, m);
    if alignment <= 4 {
      SmallerDivides(alignment, 4, |s0.data| + m);
      assert Prep(s0, alignment, m).data == s0.data;
    } else {
      SmallerDivides(4, alignment, |Prep(s0, alignment, m).data| + m);
    }
  }

  /** After StartVector the length word will be aligned once the announced elements are written. */
  lemma StartVectorAligns(s: State, e: nat, n: nat, alignment: pos)
    requires PowerOfTwo(alignment) && StartVector(s, e, n, alignment).Some?
    ensures var s1 := StartVector(s, e, n, alignment).value;
      && (|s1.data| + e * n) % 4 == 0 && (|s1.data| + e * n) % alignment == 0
      && s1.minalign >= 4 && s1.minalign >= alignment
      && s1 == s.(nested := true, data := s1.data, minalign := s1.minalign)
  {
    TwoPrepsAlign(s.(nested := true), e * n, alignment);
  }

  lemma StartVectorKeepsGood(r: Run, e: nat, n: nat, alignment: pos, room: nat)
    requires Good(r) && PowerOfTwo(alignment) && StartVector(r.st, e, n, alignment).Some? && room >= e * n + 5
    ensures var s1 := StartVector(r.st, e, n, alignment).value;
      Good(Run(s1, r.log.(open := InVector(|s1.data|, e, n, true, []), room := room)))
  {
    var s1 := StartVector(r.st, e, n, alignment).value;
    StartVectorExtends(r.st, e, n, alignment);
    StartVectorAligns(r.st, e, n, alignment);
    WordsExtend(r.st, s1, r.log.words);
    SettledKeeps(r.st, s1, r.log, r.log.(open := InVector(|s1.data|, e, n, true, []), room := room));
  }

  lemma Squeeze(start: nat, e: nat, n: nat, i: nat, handle: nat)
    requires i < n
    requires start + e * (n - i) <= handle && handle + e * i <= start + e * n
    ensures handle == start + e * n - e * i && e * i <= e * n
  {
    assert e * (n - i) == e * n - e * i;
  }

  /** The elements of a flat vector are exactly at their places. */
  lemma FlatElements(s: State, words: set<Placed>, start: nat, e: nat, elems: seq<Placed>, h: nat)
    requires FlatOk(s, words, start, e, elems) && |s.data| == start + e * |elems| && h == |s.data| + 4
    ensures forall i :: 0 <= i < |elems| ==> ElementOk(words, h, Vector(e, |elems|, WordsOf(elems)), i)
  {
    forall i | 0 <= i < |elems|
      ensures ElementOk(words, h, Vector(e, |elems|, WordsOf(elems)), i)
    {
      assert FlatElementOk(s, words, start, e, elems, i);
      Squeeze(start, e, |elems|, i, elems[i].handle);
      assert elems[i] == At(h - 4 - e * i, elems[i].word);
    }
  }

  lemma LengthWord(s: State, n: nat)
    requires |s.data| % 4 == 0 && s.minalign >= 4
    ensures PlacedOk(LE(n, 4) + s.data, s.minalign, At(|s.data| + 4, Scalar(n, 4)))
  {
    PowersUsed();
    FrontWord(LE(n, 4) + s.data, s.minalign, Scalar(n, 4), s.data);
  }

  lemma EndVectorKeepsGood(r: Run, n: nat, room: nat)
    requires Good(r) && Bracketed(r, EndVectorOp(n))
    ensures var s1 := Place(r.st, LE(n, 4)).(nested := false);
      Good(Run(s1, Ended(r.log, |s1.data|, OpenVector(r.log.open, n)).(room := room)))
  {
    hide LE, PowerOfTwo, PlacedOk, VtablesOk, TablesOk, VectorsOk, SharedOk;
    var s, log, open := r.st, r.log, r.log.open;
    var s1 := Place(s, LE(n, 4)).(nested := false);
    var log1 := Ended(log, |s1.data|, OpenVector(open, n)).(room := room);
    var h := |s1.data|;
    PlaceExtends(s, LE(n, 4));
    WordsExtend(s, s1, log.words);
    LengthWord(s, n);
    AddWords(s1.data, s1.minalign, log.words, {At(h, Scalar(n, 4))});
    if open.flat && |open.elems| == n {
      FlatElements(s, log.words, open.start, open.elemSize, open.elems, h);
      VectorFromElements(log.words, log1.words, h, open.elemSize, n, WordsOf(open.elems));
    }
    EndedKeepsGood(r, s1, log1, h);
  }

  lemma VectorFromElements(words: set<Placed>, words1: set<Placed>, h: nat, e: nat, n: nat, elems: seq<Word>)
    requires words <= words1 && At(h, Scalar(n, 4)) in words1 && |elems| == n
    requires forall i :: 0 <= i < n ==> ElementOk(words, h, Vector(e, n, elems), i)
    ensures VectorOk(words1, h, Vector(e, n, elems))
  {
    forall i | 0 <= i < n
      ensures ElementOk(words1, h, Vector(e, n, elems), i)
    {
      assert ElementOk(words, h, Vector(e, n, elems), i);
    }
  }

  // ---- Vectors of offsets -------------------------------------------------------

  lemma UOffsetWord(s: State, off: nat)
    requires PowerOfTwo(s.minalign) && PrependUOffset(s, off).Some?
    ensures var s1 := PrependUOffset(s, off).value;
      && Extends(s, s1) && s1 == s.(data := s1.data, minalign := s1.minalign)
      && PlacedOk(s1.data, s1.minalign, At(|s1.data|, Ref(off)))
      && |s1.data| == |s.data| + PadFor(s, 4, 0) + 4 && s1.minalign >= 4
      && (s.minalign >= 4 ==> s1.minalign == s.minalign)
  {
    PowersUsed();
    PrepWord(s, Ref(off));
  }

  lemma AlignedUOffset(s: State, off: nat)
    requires |s.data| % 4 == 0
    ensures PadFor(s, 4, 0) == 0 && (|s.data| + 4) % 4 == 0
  {
    PowersUsed();
    AlignSizeAligns(|s.data|, 4);
  }

  /** The loop of CreateVectorOfTables writes one aligned offset per element, without padding. */
  lemma {:induction false} UOffsetsWords(s: State, offsets: seq<nat>)
    requires PowerOfTwo(s.minalign) && s.minalign >= 4 && |s.data| % 4 == 0
    requires PrependUOffsets(s, offsets).Some?
    ensures var s1 := PrependUOffsets(s, offsets).value;
      && Extends(s, s1) && s1 == s.(data := s1.data)
      && |s1.data| == |s.data| + 4 * |offsets| && |s1.data| % 4 == 0
      && forall i :: 0 <= i < |offsets| ==>
           PlacedOk(s1.data, s1.minalign, At(|s1.data| - 4 * i, Ref(offsets[i])))
    decreases |offsets|
  {
    hide PlacedOk, PrependUOffset, PowerOfTwo, LE, Zeros;
    if offsets != [] {
      var last := |offsets| - 1;
      var s1 := PrependUOffset(s, offsets[last]).value;
      var s2 := PrependUOffsets(s, offsets).value;
      UOffsetWord(s, offsets[last]);
      AlignedUOffset(s, offsets[last]);
      UOffsetsWords(s1, offsets[..last]);
      ExtendsTransitive(s, s1, s2);
      forall i | 0 <= i < |offsets|
        ensures PlacedOk(s2.data, s2.minalign, At(|s2.data| - 4 * i, Ref(offsets[i])))
      {
        if i == last {
          PlacedExtends(s1.data, s2.data, s1.minalign, s2.minalign, At(|s1.data|, Ref(offsets[last])));
        } else {
          assert offsets[..last][i] == offsets[i];
        }
      }
    }
  }

  lemma ListWordsOk(data: seq<byte>, m: int, h: nat, offsets: seq<nat>)
    requires h >= 4 + 4 * |offsets| && PlacedOk(data, m, At(h, Scalar(|offsets|, 4)))
    requires forall i :: 0 <= i < |offsets| ==> PlacedOk(data, m, At(h - 4 - 4 * i, Ref(offsets[i])))
    ensures WordsOk(data, m, ListWords(h, offsets))
  {
  }

  lemma ListVectorOk(words: set<Placed>, h: nat, offsets: seq<nat>)
    requires ListWords(h, offsets) <= words && h >= 4 + 4 * |offsets|
    ensures VectorOk(words, h, Vector(4, |offsets|, Refs(offsets)))
  {
    var v := Vector(4, |offsets|, Refs(offsets));
    forall i | 0 <= i < |offsets|
      ensures ElementOk(words, h, v, i)
    {
      assert At(Minus(h, 4 + 4 * i), Ref(offsets[i])) in ListWords(h, offsets);
    }
  }

  /** A length word in front of the offsets makes the list. */
  lemma LengthInFront(sb: State, offsets: seq<nat>)
    requires PowerOfTwo(sb.minalign) && sb.minalign >= 4 && |sb.data| % 4 == 0 && |sb.data| >= 4 * |offsets|
    requires forall i :: 0 <= i < |offsets| ==>
      PlacedOk(sb.data, sb.minalign, At(|sb.data| - 4 * i, Ref(offsets[i])))
    ensures var data := LE(|offsets|, 4) + sb.data; WordsOk(data, sb.minalign, ListWords(|data|, offsets))
  {
    var data := LE(|offsets|, 4) + sb.data;
    LengthWord(sb, |offsets|);
    PrependedIsSuffix(LE(|offsets|, 4), sb.data);
    forall i | 0 <= i < |offsets|
      ensures PlacedOk(data, sb.minalign, At(|data| - 4 - 4 * i, Ref(offsets[i])))
    {
      PlacedExtends(sb.data, data, sb.minalign, sb.minalign, At(|sb.data| - 4 * i, Ref(offsets[i])));
    }
    ListWordsOk(data, sb.minalign, |data|, offsets);
  }

  /** The state after CreateVectorOfTables holds the words of the list. */
  lemma ListState(s: State, offsets: seq<nat>)
    requires PowerOfTwo(s.minalign) && CreateVectorOfTables(s, offsets).Some?
    ensures var s1 := CreateVectorOfTables(s, offsets).value;
      && s1 == s.(data := s1.data, minalign := s1.minalign)
      && |s1.data| >= |s.data| + 4 + 4 * |offsets|
      && WordsOk(s1.data, s1.minalign, ListWords(|s1.data|, offsets))
  {
    hide PrependUOffset, LE, Zeros, AlignSize, PowerOfTwo, PlacedOk, ListWords, PrependUOffsets;
    PowersUsed();
    var sa := StartVector(s, 4, |offsets|, 4).value;
    var sb := PrependUOffsets(sa, offsets).value;
    StartVectorExtends(s, 4, |offsets|, 4);
    StartVectorAligns(s, 4, |offsets|, 4);
    DropMultiple(|sa.data|, |offsets|);
    UOffsetsWords(sa, offsets);
    LengthInFront(sb, offsets);
  }

  lemma ListKeepsGood(r: Run, offsets: seq<nat>, room: nat)
    requires Good(r) && CreateVectorOfTables(r.st, offsets).Some?
    ensures var s1 := CreateVectorOfTables(r.st, offsets).value;
      Good(Run(s1, EndedList(r.log, |s1.data|, offsets).(room := room)))
  {
    var s1 := CreateVectorOfTables(r.st, offsets).value;
    ListState(r.st, offsets);
    ListExtends(r.st, offsets);
    ListLogGood(r, s1, offsets, room);
  }

  lemma ListLogGood(r: Run, s1: State, offsets: seq<nat>, room: nat)
    requires Good(r) && Extends(r.st, s1) && !r.st.nested && s1 == r.st.(data := s1.data, minalign := s1.minalign)
    requires |s1.data| >= |r.st.data| + 4 + 4 * |offsets|
    requires WordsOk(s1.data, s1.minalign, ListWords(|s1.data|, offsets))
    ensures Good(Run(s1, EndedList(r.log, |s1.data|, offsets).(room := room)))
  {
    var h, list := |s1.data|, ListWords(|s1.data|, offsets);
    var log1 := EndedList(r.log, |s1.data|, offsets).(room := room);
    WordsExtend(r.st, s1, r.log.words);
    AddWords(s1.data, s1.minalign, r.log.words, list);
    assert log1.words == r.log.words + list;
    ListVectorOk(log1.words, h, offsets);
    EndedKeepsGood(r, s1, log1, h);
  }

  lemma DropMultiple(x: nat, n: nat)
    requires (x + 4 * n) % 4 == 0
    ensures x % 4 == 0
  {
  }

  // ---- Strings and byte vectors ---------------------------------------------------

  /** A length word, a body and padding in front of the old data. */
  lemma BlobKeepsGood(r: Run, s1: State, count: nat, body: seq<byte>, rest: seq<byte>, room: nat)
    requires Good(r) && Extends(r.st, s1) && !s1.nested
    requires s1.vtables == r.st.vtables && s1.shared == r.st.shared && s1.minalign >= 4
    requires s1.data == LE(count, 4) + (body + rest) && |s1.data| % 4 == 0 && |s1.data| > |r.st.data|
    requires count <= |body|
    ensures Good(Run(s1, EndedBlob(r.log, |s1.data|, count, body).(room := room)))
  {
    var h := |s1.data|;
    var log1 := EndedBlob(r.log, h, count, body).(room := room);
    PowersUsed();
    WordsExtend(r.st, s1, r.log.words);
    FrontWord(s1.data, s1.minalign, Scalar(count, 4), body + rest);
    AddWords(s1.data, s1.minalign, r.log.words, {At(h, Scalar(count, 4))});
    BodyOk(s1.data, count, body, rest);
    assert VectorOk(log1.words, h, Vector(1, count, []));
    EndedKeepsGood(r, s1, log1, h);
  }

  lemma BodyOk(data: seq<byte>, count: nat, body: seq<byte>, rest: seq<byte>)
    requires data == LE(count, 4) + (body + rest)
    ensures BlobOk(data, |data|, body)
  {
    assert data[4..] == body + rest;
    assert data[4..4 + |body|] == data[4..][..|body|];
  }

  /** The string's terminator is part of the body that is recorded. */
  lemma StringShape(s: State, str: seq<byte>)
    requires CreateString(s, str).Some?
    ensures var s1 := CreateString(s, str).value;
      && s1 == s.(data := s1.data, minalign := if 4 > s.minalign then 4 else s.minalign)
      && s1.data == LE(|str|, 4) + ((str + [0]) + Prep(s, 4, |str| + 1).data)
      && |s1.data| % 4 == 0 && |s1.data| > |s.data|
  {
    PowersUsed();
    PrepAligns(s, 4, |str| + 1);
    AddMultiples(|Prep(s, 4, |str| + 1).data| + |str| + 1, 4, 4);
    Reassociate(str, [0], Prep(s, 4, |str| + 1).data);
  }

  lemma StringKeepsGood(r: Run, str: seq<byte>, room: nat)
    requires Good(r) && CreateString(r.st, str).Some?
    ensures var s1 := CreateString(r.st, str).value;
      Good(Run(s1, EndedBlob(r.log, |s1.data|, |str|, str + [0]).(room := room)))
  {
    StringExtends(r.st, str);
    StringShape(r.st, str);
    BlobKeepsGood(r, CreateString(r.st, str).value, |str|, str + [0], Prep(r.st, 4, |str| + 1).data, room);
  }

  lemma ByteVectorShape(s: State, v: seq<byte>)
    requires CreateByteVector(s, v).Some?
    ensures var s1 := CreateByteVector(s, v).value;
      && s1 == s.(data := s1.data, minalign := if 4 > s.minalign then 4 else s.minalign)
      && s1.data == LE(|v|, 4) + (v + Prep(s, 4, |v|).data)
      && |s1.data| % 4 == 0 && |s1.data| > |s.data|
  {
    PowersUsed();
    PrepAligns(s, 4, |v|);
    AddMultiples(|Prep(s, 4, |v|).data| + |v|, 4, 4);
  }

  lemma ByteVectorKeepsGood(r: Run, v: seq<byte>, room: nat)
    requires Good(r) && CreateByteVector(r.st, v).Some?
    ensures var s1 := CreateByteVector(r.st, v).value;
      Good(Run(s1, EndedBlob(r.log, |s1.data|, |v|, v).(room := room)))
  {
    ByteVectorExtends(r.st, v);
    ByteVectorShape(r.st, v);
    BlobKeepsGood(r, CreateByteVector(r.st, v).value, |v|, v, Prep(r.st, 4, |v|).data, room);
  }

  /** Interning a new string. */
  lemma SharedStringKeepsGood(r: Run, str: seq<byte>, room: nat)
    requires Good(r) && CreateString(r.st, str).Some? && str !in r.st.shared
    ensures var s1 := CreateString(r.st, str).value;
      Good(Run(s1.(shared := s1.shared[str := |s1.data|]),
        EndedBlob(r.log, |s1.data|, |str|, str + [0]).(room := room)))
  {
    var s1 := CreateString(r.st, str).value;
    var s2 := s1.(shared := s1.shared[str := |s1.data|]);
    var log1 := EndedBlob(r.log, |s1.data|, |str|, str + [0]).(room := room);
    StringShape(r.st, str);
    StringKeepsGood(r, str, room);
    assert s1.shared == r.st.shared;
    forall key | key in s2.shared
      ensures var h := s2.shared[key];
        h in log1.blobs && log1.blobs[h] == key + [0] && h in log1.vectors && log1.vectors[h].count == |key|
    {
      if key != str {
        assert s2.shared[key] <= |r.st.data|;
      }
    }
    assert VtablesOk(s2, log1) && TablesOk(s2, log1) && VectorsOk(s2, log1) && BlobsOk(s2, log1);
  }

  // ---- Finish -----------------------------------------------------------------------

  /** FinishPlain writes the offset to the root, and the size prefix if asked for. */
  lemma FinishPlainWords(s: State, root: nat, sizePrefix: bool)
    requires PowerOfTwo(s.minalign) && s.minalign >= 4 && FinishPlain(s, root, sizePrefix).Some?
    ensures var s1 := FinishPlain(s, root, sizePrefix).value;
      var rootAt := |s1.data| - (if sizePrefix then 4 else 0);
      && Extends(s, s1) && rootAt >= 4
      && s1 == s.(data := s1.data, minalign := s1.minalign, finished := true)
      && PlacedOk(s1.data, s1.minalign, At(rootAt, Ref(root)))
      && (sizePrefix ==> PlacedOk(s1.data, s1.minalign, At(|s1.data|, Scalar(|s1.data| - 4, 4))))
  {
    var sa := Prep(s, s.minalign, if sizePrefix then 8 else 4);
    PrepExtends(s, s.minalign, if sizePrefix then 8 else 4);
    UOffsetWord(sa, root);
    var sb := PrependUOffset(sa, root).value;
    FinishPlainExtends(s, root, sizePrefix);
    if sizePrefix {
      var p := At(|sb.data|, Ref(root));
      LengthWord(sb, |sb.data|);
      PrependedIsSuffix(LE(|sb.data|, 4), sb.data);
      PlacedExtends(sb.data, LE(|sb.data|, 4) + sb.data, sb.minalign, sb.minalign, p);
    }
  }

  /** `s1` is `s` with the words of Finish in front of it. */
  ghost predicate FinishedAs(s: State, s1: State, root: nat, sizePrefix: bool) {
    && Extends(s, s1) && !s.nested
    && s1 == s.(data := s1.data, minalign := s1.minalign, finished := true)
    && |s1.data| >= (if sizePrefix then 8 else 4)
    && PlacedOk(s1.data, s1.minalign, At(|s1.data| - (if sizePrefix then 4 else 0), Ref(root)))
    && (sizePrefix ==> PlacedOk(s1.data, s1.minalign, At(|s1.data|, Scalar(|s1.data| - 4, 4))))
  }

  lemma FinishKeepsGood(r: Run, s1: State, root: nat, sizePrefix: bool, room: nat)
    requires Good(r) && FinishedAs(r.st, s1, root, sizePrefix)
    ensures Good(Run(s1, r.log.(words := r.log.words + FinishWords(|s1.data|, root, sizePrefix), room := room)))
  {
    var more := FinishWords(|s1.data|, root, sizePrefix);
    var log1 := r.log.(words := r.log.words + more, room := room);
    WordsExtend(r.st, s1, r.log.words);
    AddWords(s1.data, s1.minalign, r.log.words, more);
    SettledKeeps(r.st, s1, r.log, log1);
    OpenKeeps(r.st, s1, r.log, r.log.(words := log1.words, room := r.log.room));
  }

  /** The state after Finish, with or without a file identifier. */
  lemma FinishState(s: State, root: nat, fid: Option<seq<byte>>, sizePrefix: bool)
    requires PowerOfTwo(s.minalign) && s.minalign >= 4 && Finish(s, root, fid, sizePrefix).Some?
    ensures FinishedAs(s, Finish(s, root, fid, sizePrefix).value, root, sizePrefix)
  {
    FinishExtends(s, root, fid, sizePrefix);
    if fid.None? {
      FinishPlainWords(s, root, sizePrefix);
    } else {
      FinishPlainWords(Place(Prep(s, s.minalign, if sizePrefix then 12 else 8), fid.value), root, sizePrefix);
    }
  }
}
