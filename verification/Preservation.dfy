/** Every step of a run keeps the invariant, so every reachable state has it. */
module Preservation {
  import opened Bits
  import opened Codec
  import opened Wrappers
  import opened Layout
  import opened Prepends
  import opened Runs
  import opened Stability
  import opened Invariants

  // ---- Aligned writes -------------------------------------------------------

  lemma RoomKeeps(room: nat, s: State, s1: State, op: Op)
    requires |s.data| <= |s1.data|
    ensures |s1.data| + RoomAfter(room, s, s1, op) >= |s.data| + room
  {
  }

  /** An aligned word in front of the data is a good word. */
  lemma PrepWord(s: State, w: Word)
    requires PowerOfTwo(Width(w)) && PowerOfTwo(s.minalign)
    requires w.Ref? ==> w.target <= |Prep(s, 4, 0).data|
    ensures var s0 := Prep(s, Width(w), 0);
      var s1 := Place(s0, Encode(w, |s0.data| + Width(w)));
      && Extends(s, s1) && |s1.data| >= |s.data| + Width(w)
      && PlacedOk(s1.data, s1.minalign, At(|s1.data|, w))
  {
    var k: pos := Width(w);
    var s0 := Prep(s, k, 0);
    var bytes := Encode(w, |s0.data| + k);
    PrepPlaceExtends(s, k, 0, bytes);
    PrepAligns(s, k, 0);
    AddMultiples(|s0.data|, k, k);
    FrontWord(Place(s0, bytes).data, Place(s0, bytes).minalign, w, s0.data);
  }

  lemma {:induction false} FlatPush(s: State, s1: State, words: set<Placed>, start: nat, e: nat, elems: seq<Placed>,
                                    p: Placed)
    requires FlatOk(s, words, start, e, elems)
    requires Width(p.word) == e && p.handle == |s1.data| && |s1.data| >= |s.data| + e
    ensures FlatOk(s1, words + {p}, start, e, [p] + elems)
  {
    var elems1 := [p] + elems;
    assert e * |elems1| == e * |elems| + e;
    forall i | 0 <= i < |elems1|
      ensures FlatElementOk(s1, words + {p}, start, e, elems1, i)
    {
      if i > 0 {
        assert FlatElementOk(s, words, start, e, elems, i - 1);
        assert elems1[i] == elems[i - 1] && |elems1| - i == |elems| - (i - 1);
        assert e * i == e * (i - 1) + e;
      }
    }
  }

  lemma FlatKeeps(s: State, s1: State, words: set<Placed>, words1: set<Placed>, start: nat, e: nat, elems: seq<Placed>)
    requires FlatOk(s, words, start, e, elems) && |s.data| <= |s1.data| && words <= words1
    ensures FlatOk(s1, words1, start, e, elems)
  {
    forall i | 0 <= i < |elems|
      ensures FlatElementOk(s1, words1, start, e, elems, i)
    {
      assert FlatElementOk(s, words, start, e, elems, i);
    }
  }

  /** The open bracket survives an operation that only writes in front. */
  lemma OpenKeeps(s: State, s1: State, log: Log, log1: Log)
    requires OpenOk(s, log) && Extends(s, s1)
    requires s1.nested == s.nested && s1.vtable == s.vtable && s1.objectEnd == s.objectEnd
    requires log.words <= log1.words && log1.open == log.open
    requires |s1.data| + log1.room >= |s.data| + log.room
    ensures OpenOk(s1, log1)
  {
    match log.open
    case Closed =>
    case InObject(fields) => FieldsKeep(log.words, log1.words, s.vtable, fields);
    case InVector(start, e, count, flat, elems) =>
      if flat {
        FlatKeeps(s, s1, log.words, log1.words, start, e, elems);
      }
  }

  /** A step that leaves the data alone, or pads. */
  lemma PadKeepsGood(r: Run, s1: State, room: nat)
    requires Good(r) && Extends(r.st, s1)
    requires s1 == r.st.(data := s1.data, minalign := s1.minalign)
    requires |s1.data| + room >= |r.st.data| + r.log.room
    ensures Good(Run(s1, r.log.(room := room)))
  {
    var log1 := r.log.(room := room);
    WordsExtend(r.st, s1, r.log.words);
    SettledKeeps(r.st, s1, r.log, log1);
    OpenKeeps(r.st, s1, r.log, log1);
  }

  /** A step that writes one aligned word. */
  lemma WordKeepsGood(r: Run, s1: State, w: Word, room: nat)
    requires Good(r) && Extends(r.st, s1) && |s1.data| >= |r.st.data| + Width(w)
    requires s1 == r.st.(data := s1.data, minalign := s1.minalign)
    requires PlacedOk(s1.data, s1.minalign, At(|s1.data|, w))
    requires |s1.data| + room >= |r.st.data| + r.log.room
    ensures Good(Run(s1, Wrote(r.log, At(|s1.data|, w)).(room := room)))
  {
    var s, log, p := r.st, r.log, At(|s1.data|, w);
    var log1 := Wrote(log, p).(room := room);
    WordsExtend(s, s1, log.words);
    AddWords(s1.data, s1.minalign, log.words, {p});
    SettledKeeps(s, s1, log, log1);
    match log.open
    case InVector(start, e, count, flat, elems) =>
      if flat && Width(w) == e {
        FlatPush(s, s1, log.words, start, e, elems, p);
      }
    case _ => OpenKeeps(s, s1, log, log1);
  }

  lemma SlotKeepsGood(r: Run, slot: nat, f: Field)
    requires Good(r) && r.log.open.InObject? && slot < |r.st.vtable|
    requires FieldOk(r.log.words, |r.st.data|, f)
    ensures Good(Run(r.st.(vtable := r.st.vtable[slot := |r.st.data|]), SetField(r.log, slot, f)))
  {
    var s1 := r.st.(vtable := r.st.vtable[slot := |r.st.data|]);
    var log1 := SetField(r.log, slot, f);
    WordsExtend(r.st, s1, r.log.words);
    SettledKeeps(r.st, s1, r.log, log1);
    forall i | 0 <= i < |s1.vtable|
      ensures FieldOk(log1.words, s1.vtable[i], log1.open.fields[i])
    {
      assert FieldOk(r.log.words, r.st.vtable[i], r.log.open.fields[i]);
    }
  }
}
