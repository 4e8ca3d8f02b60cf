/**
 The builder as a function of what has been written: `data` is the useful part of the buffer, every
 operation puts bytes in front of it, and a handle is a distance from its end. Nothing here knows
 the capacity of the buffer. `None` stands for a panic.
 */
module Layout {
  import opened Bits
  import opened Codec
  import opened Wrappers

  datatype State = State(
    data: seq<byte>,
    minalign: pos,
    vtable: seq<nat>,
    objectEnd: nat,
    vtables: seq<nat>,
    nested: bool,
    finished: bool,
    shared: map<seq<byte>, nat>)

  const INITIAL := State([], 1, [], 0, [], false, false, map[])

  function Zeros(n: nat): (z: seq<byte>)
    ensures |z| == n && forall i :: 0 <= i < n ==> z[i] == 0
  {
    seq(n, i => 0)
  }

  // ---- Aligned writes -------------------------------------------------------

  function PadFor(s: State, size: pos, additional: nat): nat {
    AlignSize(|s.data| + additional, size)
  }

  function Prep(s: State, size: pos, additional: nat): State {
    s.(minalign := if size > s.minalign then size else s.minalign,
       data := Zeros(PadFor(s, size, additional)) + s.data)
  }

  function Place(s: State, bytes: seq<byte>): State {
    s.(data := bytes + s.data)
  }

  /** PrependBool .. PrependFloat64, PrependVOffsetT: align to the width, then store. */
  function PrependScalar(s: State, size: pos, x: int): State {
    Place(Prep(s, size, 0), LE(x, size))
  }

  function PrependUOffset(s: State, off: nat): Option<State> {
    var s1 := Prep(s, 4, 0);
    if off <= |s1.data| then Some(Place(s1, LE(|s1.data| - off + 4, 4))) else None
  }

  // ---- Objects --------------------------------------------------------------

  function ZeroSlots(n: nat): (z: seq<nat>)
    ensures |z| == n && forall i :: 0 <= i < n ==> z[i] == 0
  {
    seq(n, i => 0)
  }

  function StartObject(s: State, numFields: nat): Option<State> {
    if s.nested then None
    else Some(s.(nested := true, vtable := ZeroSlots(numFields), objectEnd := |s.data|))
  }

  function Slot(s: State, slot: nat): Option<State> {
    if slot < |s.vtable| then Some(s.(vtable := s.vtable[slot := |s.data|])) else None
  }

  function ScalarSlot(s: State, slot: nat, size: pos, kind: Kind, x: int, d: int): Option<State> {
    if SameValue(kind, size, x, d) then Some(s) else Slot(PrependScalar(s, size, x), slot)
  }

  function UOffsetSlot(s: State, slot: nat, x: nat, d: nat): Option<State> {
    if x == d then Some(s)
    else
      match PrependUOffset(s, x)
      case None => None
      case Some(s1) => Slot(s1, slot)
  }

  function StructSlot(s: State, slot: nat, x: nat, d: nat): Option<State> {
    if x == d then Some(s)
    else if !s.nested || x != |s.data| then None
    else Slot(s, slot)
  }

  /** A vtable without its trailing absent slots. */
  function Trim(vt: seq<nat>): seq<nat> {
    if |vt| > 0 && vt[|vt| - 1] == 0 then Trim(vt[..|vt| - 1]) else vt
  }

  /** What a slot holds on the wire: the distance from the object's start to the field, or zero. */
  function Entry(slot: nat, objectOffset: nat): int {
    if slot != 0 then objectOffset - slot else 0
  }

  function PrependEntries(s: State, vt: seq<nat>, objectOffset: nat): State
    decreases |vt|
  {
    if vt == [] then s
    else
      var last := |vt| - 1;
      PrependEntries(PrependScalar(s, 2, Entry(vt[last], objectOffset)), vt[..last], objectOffset)
  }

  /** Whether the handle `v` has a whole vtable behind it, so that the slices of the search are in range. */
  predicate VtableInBounds(data: seq<byte>, v: nat) {
    4 <= v <= |data| && 4 <= Get(data, |data| - v, 2) <= v
  }

  /** The field entries of the vtable at handle `v`. */
  function VtableFields(data: seq<byte>, v: nat): seq<byte>
    requires VtableInBounds(data, v)
  {
    var start := |data| - v;
    data[start + 4..start + Get(data, start, 2)]
  }

  predicate EntryEqual(slot: nat, objectOffset: nat, x: nat) {
    (x == 0 && slot == 0) || x == objectOffset - slot
  }

  predicate VtableEqual(a: seq<nat>, objectOffset: nat, b: seq<byte>) {
    2 * |a| == |b| && forall i :: 0 <= i < |a| ==> EntryEqual(a[i], objectOffset, Get(b, 2 * i, 2))
  }

  /** The most recent registered vtable that `VtableEqual` accepts, or zero. */
  function FindVtable(data: seq<byte>, vtables: seq<nat>, vt: seq<nat>, objectOffset: nat): nat {
    if vtables == [] then 0
    else
      var v := vtables[|vtables| - 1];
      if VtableInBounds(data, v) && VtableEqual(vt, objectOffset, VtableFields(data, v)) then v
      else FindVtable(data, vtables[..|vtables| - 1], vt, objectOffset)
  }

  /** The object so far, behind a placeholder for the offset to its vtable. */
  function BeginVtable(s: State): State {
    var s1 := Prep(s, 4, 0);
    Place(s1, LE(|s1.data| + 4, 4))
  }

  /** A vtable of `vt` in front of the object that ends at `objectEnd`. */
  function AppendVtable(s: State, vt: seq<nat>, objectOffset: nat, objectEnd: nat): State {
    PrependScalar(PrependScalar(PrependEntries(s, vt, objectOffset), 2, objectOffset - objectEnd), 2, (|vt| + 2) * 2)
  }

  /** Overwrite the placeholder of the object at `objectOffset` with the distance to the vtable `v`. */
  function Patch(data: seq<byte>, objectOffset: nat, v: nat): seq<byte>
    requires 4 <= objectOffset <= |data|
  {
    Put(data, |data| - objectOffset, LE(v - objectOffset, 4))
  }

  /** Point the object at the vtable just written, and register that vtable. */
  function Register(s: State, objectOffset: nat): State
    requires 4 <= objectOffset <= |s.data|
  {
    s.(data := Patch(s.data, objectOffset, |s.data|), vtables := s.vtables + [|s.data|], vtable := [])
  }

  function FinishWithNewVtable(s: State, vt: seq<nat>, objectOffset: nat): State
    requires 4 <= objectOffset <= |s.data|
  {
    AppendVtableGrows(s, vt, objectOffset, s.objectEnd);
    Register(AppendVtable(s, vt, objectOffset, s.objectEnd), objectOffset)
  }

  function FinishWithSharedVtable(s: State, objectOffset: nat, existing: nat): State
    requires 4 <= objectOffset <= |s.data|
  {
    s.(data := Patch(s.data, objectOffset, existing), vtable := [])
  }

  function WriteVtable(s: State): State {
    var vt := Trim(s.vtable);
    var s1 := BeginVtable(s).(vtable := vt);
    var objectOffset := |s1.data|;
    var existing := FindVtable(s1.data, s1.vtables, vt, objectOffset);
    if existing == 0 then FinishWithNewVtable(s1, vt, objectOffset)
    else FinishWithSharedVtable(s1, objectOffset, existing)
  }

  function EndObject(s: State): Option<State> {
    if s.nested then Some(WriteVtable(s).(nested := false)) else None
  }

  lemma {:induction false} PrependEntriesGrows(s: State, vt: seq<nat>, objectOffset: nat)
    ensures |s.data| <= |PrependEntries(s, vt, objectOffset).data|
    ensures PrependEntries(s, vt, objectOffset) ==
      s.(data := PrependEntries(s, vt, objectOffset).data, minalign := PrependEntries(s, vt, objectOffset).minalign)
    decreases |vt|
  {
    if vt != [] {
      var last := |vt| - 1;
      PrependEntriesGrows(PrependScalar(s, 2, Entry(vt[last], objectOffset)), vt[..last], objectOffset);
    }
  }

  lemma AppendVtableGrows(s: State, vt: seq<nat>, objectOffset: nat, objectEnd: nat)
    ensures |s.data| <= |AppendVtable(s, vt, objectOffset, objectEnd).data|
  {
    PrependEntriesGrows(s, vt, objectOffset);
  }

  // ---- Vectors and strings --------------------------------------------------

  function StartVector(s: State, elemSize: nat, numElems: nat, alignment: pos): Option<State> {
    if s.nested then None
    else Some(Prep(Prep(s.(nested := true), 4, elemSize * numElems), alignment, elemSize * numElems))
  }

  function EndVector(s: State, numElems: nat): Option<State> {
    if s.nested then Some(Place(s, LE(numElems, 4)).(nested := false)) else None
  }

  /** The loop of CreateVectorOfTables, from the last offset down to the first. */
  function PrependUOffsets(s: State, offsets: seq<nat>): Option<State>
    decreases |offsets|
  {
    if offsets == [] then Some(s)
    else
      match PrependUOffset(s, offsets[|offsets| - 1])
      case None => None
      case Some(s1) => PrependUOffsets(s1, offsets[..|offsets| - 1])
  }

  function CreateVectorOfTables(s: State, offsets: seq<nat>): Option<State> {
    match StartVector(s, 4, |offsets|, 4)
    case None => None
    case Some(s1) =>
      match PrependUOffsets(s1, offsets)
      case None => None
      case Some(s2) => EndVector(s2, |offsets|)
  }

  function CreateString(s: State, str: seq<byte>): Option<State> {
    if s.nested then None
    else EndVector(Place(Place(Prep(s.(nested := true), 4, |str| + 1), [0]), str), |str|)
  }

  function CreateByteVector(s: State, v: seq<byte>): Option<State> {
    if s.nested then None
    else EndVector(Place(Prep(s.(nested := true), 4, |v|), v), |v|)
  }

  /** The new state and the handle that is returned. */
  function CreateSharedString(s: State, str: seq<byte>): Option<(State, nat)> {
    if str in s.shared then Some((s, s.shared[str]))
    else
      match CreateString(s, str)
      case None => None
      case Some(s1) => Some((s1.(shared := s1.shared[str := |s1.data|]), |s1.data|))
  }

  // ---- Finishing ------------------------------------------------------------

  function FinishPlain(s: State, root: nat, sizePrefix: bool): Option<State> {
    if s.nested then None
    else
      match PrependUOffset(Prep(s, s.minalign, if sizePrefix then 8 else 4), root)
      case None => None
      case Some(s1) =>
        var s2 := if sizePrefix then Place(s1, LE(|s1.data|, 4)) else s1;
        Some(s2.(finished := true))
  }

  /** All four Finish variants. */
  function Finish(s: State, root: nat, fid: Option<seq<byte>>, sizePrefix: bool): Option<State> {
    match fid
    case None => FinishPlain(s, root, sizePrefix)
    case Some(id) =>
      if |id| != 4 then None
      else
        var s1 := Prep(s, s.minalign, if sizePrefix then 12 else 8);
        FinishPlain(Place(s1, id), root, sizePrefix)
  }
}
