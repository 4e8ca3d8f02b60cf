/**
 The PHP builder as a function of what has been written. It has no notion of a nested vector, keeps
 the announced number of elements itself, and ends an object by writing the vtable first and taking
 it back when an earlier one has the same bytes. `None` stands for an exception.
 */
module PhpLayout {
  import opened Bits
  import opened Codec
  import opened Wrappers
  import opened Layout
  import opened PhpNumbers

  /** `stray`: a slot number past the object's fields was set, so that the vtable array is not empty. */
  datatype PhpState = PhpState(st: State, vectorNumElems: nat, stray: bool, forceDefaults: bool)

  const PHP_INITIAL := PhpState(INITIAL, 0, false, false)

  // ---- Words ------------------------------------------------------------------

  predicate IsShort(x: int) {
    -0x8000 <= x < 0x8000
  }

  predicate IsInt(x: int) {
    -0x8000_0000 <= x < 0x8000_0000
  }

  function Prep(p: PhpState, size: pos, additional: nat): PhpState {
    p.(st := Layout.Prep(p.st, size, additional))
  }

  /** The least and the greatest value that validateValue is given; PHP has no greater integer than PHP_INT_MAX. */
  function Least(kind: Kind, size: nat): int {
    if kind.Signed? then (if size == 8 then INT_MIN else -(Pow256(size) as int) / 2) else 0
  }

  function Greatest(kind: Kind, size: nat): int {
    if size == 8 then INT_MAX else if kind.Signed? then Pow256(size) / 2 - 1 else Pow256(size) - 1
  }

  /** What the put methods accept on a 64-bit platform: chr takes any integer, and pack any float. */
  predicate Accepted(kind: Kind, size: nat, x: int) {
    || size == 1 || kind.Floating?
    || (AtMost(Whole(Least(kind, size)), Argument(x)) && AtMost(Argument(x), Whole(Greatest(kind, size))))
  }

  /** The comparison with a slot's default, which generated code has as a literal. */
  predicate IsDefault(kind: Kind, size: nat, x: int, d: int) {
    if kind.Floating? then SameValue(kind, size, x, d) else Equal(Argument(x), Literal(d))
  }

  /** No double that is beyond the integers gets past the range checks: what its bytes would be, PHP leaves open. */
  predicate Determined(kind: Kind, size: nat, x: int) {
    kind.Floating? || Argument(x).Whole? || !Accepted(kind, size, x)
  }

  /** addBool .. addDouble. */
  function AddScalar(p: PhpState, size: pos, kind: Kind, x: int): Option<PhpState>
    requires Determined(kind, size, x)
  {
    if Accepted(kind, size, x) then Some(p.(st := PrependScalar(p.st, size, x))) else None
  }

  /** Of the numbers of their types, the first that are refused are the doubles above 2^63. */
  lemma AcceptedMeans(kind: Kind, size: nat, x: int)
    requires InType(kind, size, x) && (size == 1 || size == 2 || size == 4 || size == 8)
    ensures Accepted(kind, size, x) <==> !(kind.Unsigned? && size == 8 && x > 0x8000_0000_0000_0400)
    ensures Determined(kind, size, x) <==>
      !(kind.Unsigned? && size == 8 && 0x8000_0000_0000_0000 <= x <= 0x8000_0000_0000_0400)
  {
    hide Nearest;
    Widths();
    if kind.Unsigned? && size == 8 {
      AtMostTop(x);
    }
  }

  /**
   An argument equals a default that is another number only where one of the two is a double: above
   2^63 the default of a ulong, which the last 512 integers equal, and the default -2^63 of a long,
   which is a double as a literal, and which the first 512 integers above it equal.
   */
  lemma IsDefaultMeans(kind: Kind, size: nat, x: int, d: int)
    requires InType(kind, size, x) && InType(kind, size, d) && (size == 1 || size == 2 || size == 4 || size == 8)
    requires !kind.Floating? && x <= INT_MAX
    ensures IsDefault(kind, size, x, d) <==>
      || x == d
      || (size == 8 && x >= 0x7fff_ffff_ffff_fe00 && 0x8000_0000_0000_0000 <= d <= 0x8000_0000_0000_0400)
      || (size == 8 && x <= -0x7fff_ffff_ffff_fe00 && d == INT_MIN)
  {
    hide Nearest;
    Widths();
    if size == 8 {
      if kind.Signed? {
        EqualToSignedLiteral(x, d);
      } else {
        EqualToLiteral(x, d);
      }
    }
  }

  function AddByte(p: PhpState, b: byte): PhpState {
    p.(st := PrependScalar(p.st, 1, b))
  }

  /** addOffset: putInt refuses a distance that is not signed 32-bit. */
  function AddOffset(p: PhpState, off: nat): Option<PhpState> {
    var s1 := Layout.Prep(p.st, 4, 0);
    var distance := |s1.data| - off + 4;
    if off > |s1.data| || !IsInt(distance) then None
    else Some(p.(st := Place(s1, LE(distance, 4))))
  }

  // ---- Objects ----------------------------------------------------------------

  function StartObject(p: PhpState, numFields: nat): Option<PhpState> {
    if p.st.nested then None
    else Some(p.(st := p.st.(vtable := ZeroSlots(numFields), nested := true, objectEnd := |p.st.data|)))
  }

  /** A slot past the object's fields is stored, but nothing reads it. */
  function Slot(p: PhpState, slot: nat): PhpState {
    if slot < |p.st.vtable| then p.(st := p.st.(vtable := p.st.vtable[slot := |p.st.data|])) else p.(stray := true)
  }

  function AddScalarX(p: PhpState, slot: nat, size: pos, kind: Kind, x: int, d: int): Option<PhpState>
    requires Determined(kind, size, x) || (!p.forceDefaults && IsDefault(kind, size, x, d))
  {
    if p.forceDefaults || !IsDefault(kind, size, x, d) then
      match AddScalar(p, size, kind, x)
      case None => None
      case Some(p1) => Some(Slot(p1, slot))
    else Some(p)
  }

  function AddOffsetX(p: PhpState, slot: nat, x: nat, d: nat): Option<PhpState> {
    if p.forceDefaults || x != d then
      match AddOffset(p, x)
      case None => None
      case Some(p1) => Some(Slot(p1, slot))
    else Some(p)
  }

  function AddStructX(p: PhpState, slot: nat, x: nat, d: nat): Option<PhpState> {
    if x != d then (if x != |p.st.data| then None else Some(Slot(p, slot))) else Some(p)
  }

  /** addShort: putShort refuses values that are not signed 16-bit. */
  function AddShort(s: State, x: int): Option<State> {
    if IsShort(x) then Some(PrependScalar(s, 2, x)) else None
  }

  function AddEntries(s: State, vt: seq<nat>, vtableLoc: nat): Option<State>
    decreases |vt|
  {
    if vt == [] then Some(s)
    else
      match AddShort(s, Entry(vt[|vt| - 1], vtableLoc))
      case None => None
      case Some(s1) => AddEntries(s1, vt[..|vt| - 1], vtableLoc)
  }

  function AddVtable(s: State, vt: seq<nat>, vtableLoc: nat, objectStart: nat): Option<State> {
    match AddEntries(s, vt, vtableLoc)
    case None => None
    case Some(s1) =>
      match AddShort(s1, vtableLoc - objectStart)
      case None => None
      case Some(s2) => AddShort(s2, (|vt| + 2) * 2)
  }

  /** The shorts number `j` from two positions; out of range counts as different. */
  predicate ShortsEqual(data: seq<byte>, a: nat, b: nat, j: nat) {
    a + 2 * j + 2 <= |data| && b + 2 * j + 2 <= |data| && Get(data, a + 2 * j, 2) == Get(data, b + 2 * j, 2)
  }

  /** All shorts from number 1 up to the length `n` in bytes. */
  predicate SameShorts(data: seq<byte>, a: nat, b: nat, n: nat) {
    forall j :: 1 <= j < (n + 1) / 2 ==> ShortsEqual(data, a, b, j)
  }

  /** Whether the vtables at the handles `v` and `w` have the same bytes, compared short by short. */
  predicate SameVtable(data: seq<byte>, v: nat, w: nat) {
    && VtableInBounds(data, v) && VtableInBounds(data, w)
    && Get(data, |data| - v, 2) == Get(data, |data| - w, 2)
    && SameShorts(data, |data| - v, |data| - w, Get(data, |data| - v, 2))
  }

  /** The first registered vtable, from `i` on, that equals the one at the front; zero if there is none. */
  function SearchFrom(data: seq<byte>, vtables: seq<nat>, i: nat): nat
    requires i <= |vtables|
    decreases |vtables| - i
  {
    if i == |vtables| then 0
    else if SameVtable(data, vtables[i], |data|) then vtables[i]
    else SearchFrom(data, vtables, i + 1)
  }

  /** The match: drop the vtable again, and point the object at `existing`. */
  function RollBack(s4: State, vtableLoc: nat, existing: nat): Option<State>
    requires 4 <= vtableLoc <= |s4.data|
  {
    if !IsInt(existing - vtableLoc) then None
    else
      var kept := s4.data[|s4.data| - vtableLoc..];
      Some(s4.(data := Put(kept, 0, LE(existing - vtableLoc, 4)), nested := false, vtable := []))
  }

  /** No match: keep the vtable at the front, and register it. */
  function Keep(s4: State, vtableLoc: nat): Option<State>
    requires 4 <= vtableLoc <= |s4.data|
  {
    if !IsInt(|s4.data| - vtableLoc) then None
    else
      Some(s4.(data := Patch(s4.data, vtableLoc, |s4.data|), vtables := s4.vtables + [|s4.data|],
               nested := false, vtable := []))
  }

  /** The end of endObject, with the new vtable at the front of `s4` and the object at `vtableLoc`. */
  function Settle(s4: State, vtableLoc: nat): Option<State>
    requires 4 <= vtableLoc <= |s4.data|
  {
    var existing := SearchFrom(s4.data, s4.vtables, 0);
    if existing != 0 then RollBack(s4, vtableLoc, existing) else Keep(s4, vtableLoc)
  }

  lemma {:induction false} AddEntriesGrows(s: State, vt: seq<nat>, vtableLoc: nat)
    ensures AddEntries(s, vt, vtableLoc).Some? ==> |s.data| <= |AddEntries(s, vt, vtableLoc).value.data|
    decreases |vt|
  {
    if vt != [] {
      var s1 := AddShort(s, Entry(vt[|vt| - 1], vtableLoc));
      if s1.Some? {
        AddEntriesGrows(s1.value, vt[..|vt| - 1], vtableLoc);
      }
    }
  }

  function EndState(s: State): Option<State> {
    var s1 := PrependScalar(s, 4, 0);
    AddEntriesGrows(s1, Trim(s.vtable), |s1.data|);
    match AddVtable(s1, Trim(s.vtable), |s1.data|, s.objectEnd)
    case None => None
    case Some(s4) => Settle(s4, |s1.data|)
  }

  function EndObject(p: PhpState): Option<PhpState> {
    if (p.st.vtable == [] && !p.stray) || !p.st.nested then None
    else
      match EndState(p.st)
      case None => None
      case Some(s) => Some(p.(st := s, stray := false))
  }

  // ---- Vectors and strings ----------------------------------------------------

  function StartVector(p: PhpState, elemSize: nat, numElems: nat, alignment: pos): Option<PhpState> {
    if p.st.nested then None
    else
      var n := elemSize * numElems;
      Some(Prep(Prep(p, 4, n), alignment, n).(vectorNumElems := numElems))
  }

  function EndVector(p: PhpState): Option<PhpState> {
    if p.vectorNumElems < 0x1_0000_0000 then Some(p.(st := Place(p.st, LE(p.vectorNumElems, 4)))) else None
  }

  /** A byte of 10xxxxxx, or of a smaller range. */
  predicate Continues(str: seq<byte>, i: nat, least: byte, most: byte) {
    i < |str| && least <= str[i] <= most
  }

  /** The length of the encoded character at the front, by section 4 of RFC 3629; zero if there is none. */
  function CharLength(str: seq<byte>): (n: nat)
    ensures n <= |str|
  {
    if str == [] then 0
    else if str[0] <= 0x7f then 1
    else if 0xc2 <= str[0] <= 0xdf then (if Continues(str, 1, 0x80, 0xbf) then 2 else 0)
    else if 0xe0 <= str[0] <= 0xef then
      var least, most := if str[0] == 0xe0 then 0xa0 else 0x80, if str[0] == 0xed then 0x9f else 0xbf;
      if Continues(str, 1, least, most) && Continues(str, 2, 0x80, 0xbf) then 3 else 0
    else if 0xf0 <= str[0] <= 0xf4 then
      var least, most := if str[0] == 0xf0 then 0x90 else 0x80, if str[0] == 0xf4 then 0x8f else 0xbf;
      if Continues(str, 1, least, most) && Continues(str, 2, 0x80, 0xbf) && Continues(str, 3, 0x80, 0xbf) then 4 else 0
    else 0
  }

  /** is_utf8, as mb_detect_encoding decides it. */
  predicate IsUtf8(str: seq<byte>)
    decreases |str|
  {
    str == [] || (CharLength(str) > 0 && IsUtf8(str[CharLength(str)..]))
  }

  /** The terminator is added before the padding, the other way round than in Go. */
  function CreateString(p: PhpState, str: seq<byte>): Option<PhpState> {
    if !IsUtf8(str) || p.st.nested then None
    else
      match StartVector(AddByte(p, 0), 1, |str|, 1)
      case None => None
      case Some(p1) => EndVector(p1.(st := Place(p1.st, str)))
  }

  // ---- Finishing --------------------------------------------------------------

  function FinishPlain(p: PhpState, root: nat): Option<PhpState> {
    AddOffset(Prep(p, p.st.minalign, 4), root)
  }

  /** addByte for each byte, last first. */
  function AddBytes(p: PhpState, bytes: seq<byte>): (r: PhpState)
    ensures r.forceDefaults == p.forceDefaults
    decreases |bytes|
  {
    if bytes == [] then p else AddBytes(AddByte(p, bytes[|bytes| - 1]), bytes[..|bytes| - 1])
  }

  /** finish; an empty identifier equals null. */
  function Finish(p: PhpState, root: nat, fid: Option<seq<byte>>): Option<PhpState> {
    if fid == None || fid == Some([]) then FinishPlain(p, root)
    else if |fid.value| != 4 then None
    else FinishPlain(AddBytes(Prep(p, p.st.minalign, 8), fid.value), root)
  }
}
