/**
 What schema and words lead to is followed. The walk notes every place that it comes to; a place
 that no earlier section contains gets a section that shows it, and whatever its fields or elements
 lead to inside the binary is a later place of the list: tables, strings, vectors and unions alike.
 */
module Links {
  import opened Codec
  import opened Wrappers
  import opened Annotated
  import opened Sorting
  import opened Gaps
  import opened Walks
  import opened TableRegions

  // ---- Links, by schema and words ---------------------------------------------------------

  /**
   Where field `id` of the table at `at` stands, if it is present: its entry is within the vtable and
   not zero, and at the table that the vtable was made for the field begins inside the binary.
   */
  function FieldOffset(c: Context, at: nat, table: nat, builder: nat, id: nat): (r: Option<nat>)
    ensures r.Some? ==> r.value > at
  {
    if !IsTable(c.schema, table) || |FieldsOf(c, table)| <= id || |c.binary| < at + 4 then None
    else
      var lead := LeadOf(c.binary, at);
      if |c.binary| < lead + 6 + 2 * id || Get(c.binary, lead, 2) <= 4 + 2 * id then None
      else
        var distance := Get(c.binary, lead + 4 + 2 * id, 2);
        if distance == 0 || |c.binary| < builder + distance then None else Some(at + distance)
  }

  /** Where the offset word at a place leads, if that is inside the binary. */
  function Leads(binary: seq<byte>, at: nat): (r: Option<nat>)
    ensures r.Some? ==> at + 4 <= |binary| && at <= r.value < |binary|
  {
    if at + 4 <= |binary| && at + Get(binary, at, 4) < |binary| then Some(at + Get(binary, at, 4)) else None
  }

  /** The union's type is value `t` of its enum, and that is a table or a struct. */
  predicate UnionLink(c: Context, enumId: int, t: nat, target: nat, q: Place) {
    && 0 <= enumId < |c.schema.enums| && t < |c.schema.enums[enumId]|
    && var u := c.schema.enums[enumId][t];
       && u.base == Obj && IsObject(c.schema, u.index)
       && q == if c.schema.objects[u.index].isStruct then StructPlace(target, u.index)
               else TablePlace(target, TableSection, u.index)
  }

  /** Field `id` of the table leads to the place `q`. */
  predicate FieldLink(c: Context, at: nat, table: nat, builder: nat, id: nat, q: Place) {
    var field := FieldOffset(c, at, table, builder, id);
    && field.Some? && Leads(c.binary, field.value).Some?
    && var t, target := FieldsOf(c, table)[id].typ, Leads(c.binary, field.value).value;
       && target != field.value
       && match t.base
          case Obj => IsTable(c.schema, t.index) && q == TablePlace(target, TableSection, t.index)
          case Str => q == StringPlace(target)
          case Vec => q == VectorPlace(target, table, id, at, builder)
          case Vec64 => q == VectorPlace(target, table, id, at, builder)
          case Union =>
            var types := if id > 0 then FieldOffset(c, at, table, builder, id - 1) else None;
            types.Some? && types.value < |c.binary| && UnionLink(c, t.index, c.binary[types.value], target, q)
          case _ => false
  }

  /** How many bytes a vector's length takes, and how many elements it counts. */
  function LengthBytes(t: Type): nat {
    if t.base == Vec64 then 8 else 4
  }

  /** The end of `n` elements, which is checked modulo 2^64, is inside the binary. */
  predicate Fits(binary: seq<byte>, start: nat, n: nat, size: nat) {
    (start + n * size - 1) % 0x1_0000_0000_0000_0000 < |binary|
  }

  /** Element `j` of the vector of offsets, in field `id` of the table at `parent`, leads to the place `q`. */
  predicate ElementLink(c: Context, vector: nat, table: nat, id: nat, parent: nat, builder: nat, j: nat, q: Place) {
    && IsTable(c.schema, table) && id < |FieldsOf(c, table)|
    && var t := FieldsOf(c, table)[id].typ;
       var start := vector + LengthBytes(t);
       && start <= |c.binary| && j < Get(c.binary, vector, LengthBytes(t))
       && Fits(c.binary, start, Get(c.binary, vector, LengthBytes(t)), 4)
       && Leads(c.binary, start + 4 * j).Some?
       && var target := Leads(c.binary, start + 4 * j).value;
          if t.element == Obj then IsTable(c.schema, t.index) && q == TablePlace(target, TableSection, t.index)
          else if t.element == Str then q == StringPlace(target)
          else t.element == Union && UnionElementLink(c, start, table, id, parent, builder, j, target, q)
  }

  /** The type of a union in a vector stands at its place in a second vector; all elements before it lead inside. */
  predicate UnionElementLink(c: Context, start: nat, table: nat, id: nat, parent: nat, builder: nat, j: nat,
                             target: nat, q: Place)
    requires IsTable(c.schema, table) && id < |FieldsOf(c, table)|
  {
    var types := if id > 0 then FieldOffset(c, parent, table, builder, id - 1) else None;
    && types.Some? && types.value + 2 <= |c.binary| && TypeOf(c.binary, types.value, j) < |c.binary|
    && LeadInside(c.binary, start, j)
    && UnionLink(c, FieldsOf(c, table)[id].typ.index, c.binary[TypeOf(c.binary, types.value, j)], target, q)
  }

  /** Where the type of element `j` stands, by the word for the types. */
  function TypeOf(binary: seq<byte>, field: nat, j: nat): nat
    requires field + 2 <= |binary|
  {
    field + Get(binary, field, 2) + 4 + j
  }

  predicate LeadInside(binary: seq<byte>, start: nat, j: nat) {
    forall i :: 0 <= i < j ==> Leads(binary, start + 4 * i).Some?
  }

  // ---- The sections that show a place -------------------------------------------------------

  /** Sections stay where they are and what they are, and lose no region. */
  ghost predicate Keeps(m: Sections, m1: Sections) {
    forall k | k in m :: k in m1 && m1[k].typ == m[k].typ && forall r | r in m[k].regions :: r in m1[k].regions
  }

  lemma GrowsKeeps(m: Sections, m1: Sections)
    requires Grows(m, m1)
    ensures Keeps(m, m1)
  {
  }

  /** Length, characters and terminator of a string that is inside the binary. */
  ghost predicate ShowsString(binary: seq<byte>, s: Section, at: nat) {
    && s.typ == StringSection
    && (at + 4 <= |binary| ==>
         var n := Get(binary, at, 4);
         && Region(at, 4, Uint32, 0, 0) in s.regions
         && (at + 4 + n < |binary| ==>
              Region(at + 4, n, Chars, n, 0) in s.regions && Region(at + 4 + n, 1, Chars, 0, 0) in s.regions))
  }

  /** The length of a vector, and all elements of a vector of scalars that is inside the binary. */
  ghost predicate ShowsVector(c: Context, s: Section, at: nat, t: Type) {
    && (s.typ == VectorSection || s.typ == Vector64Section)
    && (at + LengthBytes(t) <= |c.binary| ==>
         var n, start := Get(c.binary, at, LengthBytes(t)), at + LengthBytes(t);
         && Region(at, LengthBytes(t), if t.base == Vec64 then Uint64 else Uint32, 0, 0) in s.regions
         && (IsScalar(t.element) && start + n * GetTypeSize(t.element) <= |c.binary| ==>
              forall j: nat | j < n :: ShowsScalar(s, start + j * GetTypeSize(t.element), t.element)))
  }

  /** One region for a scalar, as wide as it and of its type. */
  ghost predicate ShowsScalar(s: Section, at: nat, t: BaseType) {
    Region(at, GetTypeSize(t), GetRegionType(t), 0, 0) in s.regions
  }

  /** The scalar that a struct begins with. */
  function FirstScalar(c: Context, index: nat): BaseType
    requires SchemaOk(c.schema, c.ranks) && IsStruct(c.schema, index)
    decreases c.ranks[index]
  {
    assert ObjectOk(c.schema, c.ranks, index);
    var f := c.schema.objects[index].fields[0];
    assert f in c.schema.objects[index].fields;
    if f.typ.base == Obj then FirstScalar(c, f.typ.index)
    else if f.typ.base != Arr then f.typ.base
    else if IsScalar(f.typ.element) then f.typ.element
    else FirstScalar(c, f.typ.index)
  }

  /** A union that is a struct: its first scalar, if that is inside the binary. */
  ghost predicate ShowsStruct(c: Context, s: Section, at: nat, index: nat) {
    && s.typ == UnionSection
    && SchemaOk(c.schema, c.ranks) && IsStruct(c.schema, index)
    && (at + GetTypeSize(FirstScalar(c, index)) <= |c.binary| ==> ShowsScalar(s, at, FirstScalar(c, index)))
  }

  /** The vtable that stands at `lead` is whole: its size, of at least four, ends inside the binary. */
  predicate WholeVTable(binary: seq<byte>, lead: nat) {
    lead + 2 <= |binary| && 4 <= Get(binary, lead, 2) && lead + Get(binary, lead, 2) <= |binary|
  }

  /** The table's vtable is whole, and its place is not inside another section that was there before. */
  predicate HasVTable(binary: seq<byte>, before: Sections, at: nat)
    requires NonEmpty(before)
  {
    && at + 4 <= |binary| && WholeVTable(binary, LeadOf(binary, at))
    && (Contains(before, LeadOf(binary, at)) ==>
         LeadOf(binary, at) in before && before[LeadOf(binary, at)].typ == VTableSection)
  }

  lemma SharedIsVTable(c: Context, at: nat, table: nat, builder: nat)
    requires SchemaOk(c.schema, c.ranks) && IsTable(c.schema, table) && ShareVTable(c.binary, at, builder)
    ensures IsVTableOf(c, at, table, MakeVTable(c, LeadOf(c.binary, at), table, builder))
  {
    hide SchemaOk, EntriesFor, SizesOf, LeadOf;
  }

  /**
   The table has a section of its type with all fields that are shown, by the vtable that was made for
   the table at `builder`; or the vtable of a table behind it has been filed at its place.
   */
  ghost predicate ShowsTableAt(c: Context, m: Sections, at: nat, typ: SectionType, table: nat, builder: nat) {
    && SchemaOk(c.schema, c.ranks) && IsTable(c.schema, table) && ShareVTable(c.binary, at, builder) && at in m
    && (m[at].typ != VTableSection ==>
         (SharedIsVTable(c, at, table, builder);
          ShowsTable(c, m[at], at, typ, table, MakeVTable(c, LeadOf(c.binary, at), table, builder))))
  }

  // ---- The law ------------------------------------------------------------------------------

  /** The walk comes to `q` after arrival number `i`. */
  ghost predicate ComesTo(arrivals: seq<Arrival>, i: int, q: Place) {
    exists j :: 0 <= j < |arrivals| && i < j && arrivals[j].place == q
  }

  ghost predicate FieldsFollowed(c: Context, arrivals: seq<Arrival>, i: nat, at: nat, table: nat, builder: nat) {
    forall id: nat, q | FieldLink(c, at, table, builder, id, q) :: ComesTo(arrivals, i, q)
  }

  ghost predicate ElementsFollowed(c: Context, arrivals: seq<Arrival>, i: nat, vector: nat, table: nat, id: nat,
                                   parent: nat, builder: nat) {
    forall j: nat, q | ElementLink(c, vector, table, id, parent, builder, j, q) :: ComesTo(arrivals, i, q)
  }

  /** A table that is shown, with all that its fields lead to. */
  ghost predicate Opened(c: Context, m: Sections, arrivals: seq<Arrival>, i: nat, at: nat, typ: SectionType, table: nat,
                         builder: nat) {
    ShowsTableAt(c, m, at, typ, table, builder) && FieldsFollowed(c, arrivals, i, at, table, builder)
  }

  ghost predicate VectorShown(c: Context, m: Sections, at: nat, table: nat, id: nat) {
    && IsTable(c.schema, table) && id < |FieldsOf(c, table)| && at in m
    && (m[at].typ != VTableSection ==> ShowsVector(c, m[at], at, FieldsOf(c, table)[id].typ))
  }

  /**
   A place that the walk has come to, with the sections `m` at the end: unless a section that was
   there before contains it, it has its own section, and all its links are followed.
   */
  ghost predicate Law(c: Context, m: Sections, arrivals: seq<Arrival>, i: nat)
    requires i < |arrivals|
  {
    var before := arrivals[i].before;
    && NonEmpty(before)
    && (!Contains(before, arrivals[i].place.at) ==>
         match arrivals[i].place
         case TablePlace(at, typ, table) =>
           HasVTable(c.binary, before, at) ==> exists builder: nat :: Opened(c, m, arrivals, i, at, typ, table, builder)
         case StringPlace(at) => at in m && ShowsString(c.binary, m[at], at)
         case VectorPlace(at, table, id, parent, builder) =>
           VectorShown(c, m, at, table, id) && ElementsFollowed(c, arrivals, i, at, table, id, parent, builder)
         case StructPlace(at, index) => at in m && ShowsStruct(c, m[at], at, index))
  }

  /** The section at `k` was filed when the walk came to this new place: for it, or for the vtable it leads to. */
  predicate FiledFor(binary: seq<byte>, a: Arrival, k: nat) {
    && NonEmpty(a.before) && !Contains(a.before, a.place.at)
    && (k == a.place.at || (a.place.TablePlace? && a.place.at + 4 <= |binary| && k == LeadOf(binary, a.place.at)))
  }

  // ---- From one state of the walk to a later one ----------------------------------------------

  /** A section of a vtable stands for one that is remembered, or for one that is not whole. */
  ghost predicate VTablesStand(c: Context, w: Walk) {
    forall k | k in w.sections && w.sections[k].typ == VTableSection ::
      KnownAt(w, k) != [] || SizesOf(c.binary, k).None?
  }

  /** The section was filed for one of the arrivals from `lo` up to `hi`. */
  ghost predicate FiledSince(binary: seq<byte>, arrivals: seq<Arrival>, lo: nat, hi: nat, k: nat) {
    exists j :: lo <= j < hi && j < |arrivals| && FiledFor(binary, arrivals[j], k)
  }

  /** What is new in `m` since `was` lies behind `floor` or is a vtable, and was filed for one of these arrivals. */
  ghost predicate NewSections(c: Context, floor: int, was: Sections, m: Sections, arrivals: seq<Arrival>, lo: nat,
                              hi: nat) {
    forall k | k in m && k !in was ::
      (k > floor || m[k].typ == VTableSection) && FiledSince(c.binary, arrivals, lo, hi, k)
  }

  /** An arrival between `w` and `w1`. */
  ghost predicate Between(c: Context, floor: int, lo: nat, w: Walk, w1: Walk, i: nat)
    requires i < |w1.arrivals|
  {
    var before := w1.arrivals[i].before;
    && Grows(w.sections, before) && Grows(before, w1.sections)
    && NewSections(c, floor, w.sections, before, w1.arrivals, lo, i) && Law(c, w1.sections, w1.arrivals, i)
  }

  /** The walk goes on from `w` to `w1`; what it files is for the arrivals from `lo` on, and behind `floor`. */
  ghost predicate Went(c: Context, floor: int, lo: nat, w: Walk, w1: Walk) {
    && NonEmpty(w1.sections) && VTablesStand(c, w1)
    && Grows(w.sections, w1.sections) && w.arrivals <= w1.arrivals && lo <= |w.arrivals|
    && NewSections(c, floor, w.sections, w1.sections, w1.arrivals, lo, |w1.arrivals|)
    && forall i: nat | |w.arrivals| <= i < |w1.arrivals| :: Between(c, floor, lo, w, w1, i)
  }

  lemma FollowStays(c: Context, arrivals: seq<Arrival>, arrivals1: seq<Arrival>, i: nat, q: Place)
    requires arrivals <= arrivals1 && ComesTo(arrivals, i, q)
    ensures ComesTo(arrivals1, i, q)
  {
    var j :| 0 <= j < |arrivals| && i < j && arrivals[j].place == q;
    assert arrivals1[j].place == q;
  }

  lemma FieldsStay(c: Context, arrivals: seq<Arrival>, arrivals1: seq<Arrival>, i: nat, at: nat, table: nat,
                   builder: nat)
    requires arrivals <= arrivals1 && FieldsFollowed(c, arrivals, i, at, table, builder)
    ensures FieldsFollowed(c, arrivals1, i, at, table, builder)
  {
    hide FieldLink, ComesTo;
    forall id: nat, q | FieldLink(c, at, table, builder, id, q)
      ensures ComesTo(arrivals1, i, q)
    {
      FollowStays(c, arrivals, arrivals1, i, q);
    }
  }

  lemma ElementsStay(c: Context, arrivals: seq<Arrival>, arrivals1: seq<Arrival>, i: nat, vector: nat, table: nat,
                     id: nat, parent: nat, builder: nat)
    requires arrivals <= arrivals1 && ElementsFollowed(c, arrivals, i, vector, table, id, parent, builder)
    ensures ElementsFollowed(c, arrivals1, i, vector, table, id, parent, builder)
  {
    hide ElementLink, ComesTo;
    forall j: nat, q | ElementLink(c, vector, table, id, parent, builder, j, q)
      ensures ComesTo(arrivals1, i, q)
    {
      FollowStays(c, arrivals, arrivals1, i, q);
    }
  }

  lemma TableStays(c: Context, m: Sections, m1: Sections, at: nat, typ: SectionType, table: nat, builder: nat)
    requires Keeps(m, m1) && ShowsTableAt(c, m, at, typ, table, builder)
    ensures ShowsTableAt(c, m1, at, typ, table, builder)
  {
    hide ShowsTable, MakeVTable, SchemaOk, ShareVTable, IsVTableOf;
    if m[at].typ != VTableSection {
      SharedIsVTable(c, at, table, builder);
      InsideBinary(c, at, builder);
      ShowsMore(c, m[at], m1[at], at, typ, table, MakeVTable(c, LeadOf(c.binary, at), table, builder));
    }
  }

  lemma InsideBinary(c: Context, at: nat, builder: nat)
    requires ShareVTable(c.binary, at, builder)
    ensures at + 4 <= |c.binary| && SizesOf(c.binary, LeadOf(c.binary, at)).Some?
  {
  }

  /** What holds of an arrival stays so, whatever else is filed and followed. */
  lemma LawStays(c: Context, m: Sections, m1: Sections, arrivals: seq<Arrival>, arrivals1: seq<Arrival>, i: nat)
    requires i < |arrivals| && arrivals <= arrivals1 && Keeps(m, m1) && Law(c, m, arrivals, i)
    ensures Law(c, m1, arrivals1, i)
  {
    hide FieldsFollowed, ElementsFollowed, ShowsTableAt, HasVTable, Contains, IsTable, IsScalar;
    var a := arrivals[i];
    if !Contains(a.before, a.place.at) {
      match a.place
      case TablePlace(at, typ, table) =>
        if HasVTable(c.binary, a.before, at) {
          var builder: nat :| Opened(c, m, arrivals, i, at, typ, table, builder);
          TableStays(c, m, m1, at, typ, table, builder);
          FieldsStay(c, arrivals, arrivals1, i, at, table, builder);
          assert Opened(c, m1, arrivals1, i, at, typ, table, builder);
        }
      case VectorPlace(at, table, id, parent, builder) =>
        ElementsStay(c, arrivals, arrivals1, i, at, table, id, parent, builder);
      case StringPlace(at) =>
      case StructPlace(at, index) =>
    }
  }

  lemma FiledStays(binary: seq<byte>, arrivals: seq<Arrival>, arrivals1: seq<Arrival>, lo: nat, hi: nat, lo1: nat,
                   hi1: nat, k: nat)
    requires FiledSince(binary, arrivals, lo, hi, k) && arrivals <= arrivals1 && lo1 <= lo && hi <= hi1
    ensures FiledSince(binary, arrivals1, lo1, hi1, k)
  {
    hide FiledFor;
    var j :| lo <= j < hi && j < |arrivals| && FiledFor(binary, arrivals[j], k);
    assert FiledFor(binary, arrivals1[j], k);
  }

  /** Less is promised of a lower floor and an earlier first arrival. */
  lemma WentLower(c: Context, floor: int, lo: nat, w: Walk, w1: Walk, floor1: int, lo1: nat)
    requires Went(c, floor, lo, w, w1) && floor1 <= floor && lo1 <= lo
    ensures Went(c, floor1, lo1, w, w1)
  {
    hide Law, FiledFor, NonEmpty, VTablesStand, NewSections;
    NewLower(c, floor, w.sections, w1.sections, w1.arrivals, lo, |w1.arrivals|, floor1, lo1);
    forall i: nat | |w.arrivals| <= i < |w1.arrivals|
      ensures Between(c, floor1, lo1, w, w1, i)
    {
      assert Between(c, floor, lo, w, w1, i);
      NewLower(c, floor, w.sections, w1.arrivals[i].before, w1.arrivals, lo, i, floor1, lo1);
    }
  }

  lemma NewLower(c: Context, floor: int, was: Sections, m: Sections, arrivals: seq<Arrival>, lo: nat, hi: nat,
                 floor1: int, lo1: nat)
    requires NewSections(c, floor, was, m, arrivals, lo, hi) && floor1 <= floor && lo1 <= lo
    ensures NewSections(c, floor1, was, m, arrivals, lo1, hi)
  {
    hide FiledSince;
    forall k | k in m && k !in was
      ensures FiledSince(c.binary, arrivals, lo1, hi, k)
    {
      FiledStays(c.binary, arrivals, arrivals, lo, hi, lo1, hi, k);
    }
  }

  lemma NewJoin(c: Context, floor: int, a: Sections, b: Sections, m: Sections, arrivals: seq<Arrival>,
                arrivals1: seq<Arrival>, lo: nat, mid: nat, lo1: nat, hi: nat)
    requires NewSections(c, floor, a, b, arrivals, lo, mid) && NewSections(c, floor, b, m, arrivals1, lo1, hi)
    requires Grows(b, m) && arrivals <= arrivals1 && lo <= lo1 && mid <= hi
    ensures NewSections(c, floor, a, m, arrivals1, lo, hi)
  {
    hide FiledSince;
    forall k | k in m && k !in a
      ensures k > floor || m[k].typ == VTableSection
      ensures FiledSince(c.binary, arrivals1, lo, hi, k)
    {
      if k in b {
        FiledStays(c.binary, arrivals, arrivals1, lo, mid, lo, hi, k);
      } else {
        FiledStays(c.binary, arrivals1, arrivals1, lo1, hi, lo, hi, k);
      }
    }
  }

  /** One part of the walk after another. */
  lemma WentOn(c: Context, floor: int, lo: nat, w: Walk, w1: Walk, lo1: nat, w2: Walk)
    requires Went(c, floor, lo, w, w1) && Went(c, floor, lo1, w1, w2) && lo <= lo1
    ensures Went(c, floor, lo, w, w2)
  {
    hide Law, FiledFor, NonEmpty, VTablesStand, NewSections, Grows;
    GrowsOn(w.sections, w1.sections, w2.sections);
    NewJoin(c, floor, w.sections, w1.sections, w2.sections, w1.arrivals, w2.arrivals, lo, |w1.arrivals|, lo1,
            |w2.arrivals|);
    forall i: nat | |w.arrivals| <= i < |w2.arrivals|
      ensures Between(c, floor, lo, w, w2, i)
    {
      if i < |w1.arrivals| {
        FirstBetween(c, floor, lo, w, w1, w2, i);
      } else {
        LaterBetween(c, floor, lo, w, w1, lo1, w2, i);
      }
    }
  }

  lemma FirstBetween(c: Context, floor: int, lo: nat, w: Walk, w1: Walk, w2: Walk, i: nat)
    requires i < |w1.arrivals| && Between(c, floor, lo, w, w1, i) && w1.arrivals <= w2.arrivals
    requires Grows(w1.sections, w2.sections)
    ensures Between(c, floor, lo, w, w2, i)
  {
    hide Law, FiledFor, Grows, NewSections, Keeps;
    var before := w1.arrivals[i].before;
    assert w2.arrivals[i] == w1.arrivals[i];
    GrowsOn(before, w1.sections, w2.sections);
    GrowsKeeps(w1.sections, w2.sections);
    LawStays(c, w1.sections, w2.sections, w1.arrivals, w2.arrivals, i);
    NothingNew(c, floor, before, w2.arrivals, i);
    GrowsSelf(before);
    NewJoin(c, floor, w.sections, before, before, w1.arrivals, w2.arrivals, lo, i, lo, i);
  }

  lemma GrowsSelf(m: Sections)
    ensures Grows(m, m)
  {
  }

  lemma NothingNew(c: Context, floor: int, m: Sections, arrivals: seq<Arrival>, hi: nat)
    ensures forall lo: nat :: NewSections(c, floor, m, m, arrivals, lo, hi)
  {
  }

  lemma LaterBetween(c: Context, floor: int, lo: nat, w: Walk, w1: Walk, lo1: nat, w2: Walk, i: nat)
    requires |w1.arrivals| <= i < |w2.arrivals| && Between(c, floor, lo1, w1, w2, i) && w1.arrivals <= w2.arrivals
    requires Grows(w.sections, w1.sections) && lo <= lo1
    requires NewSections(c, floor, w.sections, w1.sections, w1.arrivals, lo, |w1.arrivals|)
    ensures Between(c, floor, lo, w, w2, i)
  {
    hide Law, FiledFor, Grows, NewSections;
    var before := w2.arrivals[i].before;
    GrowsOn(w.sections, w1.sections, before);
    NewJoin(c, floor, w.sections, w1.sections, before, w1.arrivals, w2.arrivals, lo, |w1.arrivals|, lo1, i);
  }

  lemma WentNowhere(c: Context, floor: int, w: Walk)
    requires NonEmpty(w.sections) && VTablesStand(c, w)
    ensures Went(c, floor, |w.arrivals|, w, w)
  {
    hide Law, VTablesStand;
  }

  /** The walk has come to `q` since `w`. */
  ghost predicate Reaches(w: Walk, w1: Walk, q: Place) {
    ComesTo(w1.arrivals, |w.arrivals| - 1, q)
  }

  /** A part of the walk before, and one behind. */
  lemma ReachesOn(w: Walk, w1: Walk, w2: Walk, w3: Walk, q: Place)
    requires |w.arrivals| <= |w1.arrivals| && w2.arrivals <= w3.arrivals && Reaches(w1, w2, q)
    ensures Reaches(w, w3, q)
  {
    var j :| 0 <= j < |w2.arrivals| && |w1.arrivals| - 1 < j && w2.arrivals[j].place == q;
    assert w3.arrivals[j].place == q;
  }

  /** A new arrival, with all that is filed and followed for it. */
  lemma ArrivalCloses(c: Context, floor: int, w: Walk, p: Place, w1: Walk)
    requires NonEmpty(w.sections) && VTablesStand(c, w) && Went(c, floor, |w.arrivals|, Arrive(w, p), w1)
    requires Law(c, w1.sections, w1.arrivals, |w.arrivals|)
    ensures Went(c, floor, |w.arrivals|, w, w1) && Reaches(w, w1, p)
  {
    hide Law, FiledFor, FiledSince, VTablesStand;
    var lo, w0 := |w.arrivals|, Arrive(w, p);
    assert w1.arrivals[lo] == w0.arrivals[lo] == Arrival(p, w.sections);
    forall i: nat | lo <= i < |w1.arrivals|
      ensures Between(c, floor, lo, w, w1, i)
    {
      if i > lo {
        assert Between(c, floor, lo, w0, w1, i);
      }
    }
  }

  /** The section that is filed for an arrival. */
  lemma FilesFor(c: Context, floor: int, lo: nat, w: Walk, at: nat, s: Section)
    requires NonEmpty(w.sections) && VTablesStand(c, w) && s.regions != [] && s.typ != VTableSection && floor < at
    requires lo < |w.arrivals| && FiledFor(c.binary, w.arrivals[lo], at)
    ensures Went(c, floor, lo, w, AddTo(w, at, s))
  {
    hide Law, FiledFor, SizesOf;
    var w1 := AddTo(w, at, s);
    assert FiledSince(c.binary, w1.arrivals, lo, |w1.arrivals|, at);
    forall k | k in w1.sections && w1.sections[k].typ == VTableSection
      ensures KnownAt(w1, k) != [] || SizesOf(c.binary, k).None?
    {
      assert k in w.sections && KnownAt(w1, k) == KnownAt(w, k);
    }
  }

  lemma ArriveStays(c: Context, w: Walk, p: Place)
    requires NonEmpty(w.sections) && VTablesStand(c, w)
    ensures NonEmpty(Arrive(w, p).sections) && VTablesStand(c, Arrive(w, p))
  {
    hide SizesOf;
    assert forall k :: KnownAt(Arrive(w, p), k) == KnownAt(w, k);
  }

  /** A place that an earlier section contains. */
  lemma ArrivesAtContained(c: Context, floor: int, w: Walk, p: Place)
    requires NonEmpty(w.sections) && VTablesStand(c, w) && Contains(w.sections, p.at)
    ensures Went(c, floor, |w.arrivals|, w, Arrive(w, p)) && Reaches(w, Arrive(w, p), p)
  {
    hide VTablesStand, Went, Contains, Reaches;
    ArriveStays(c, w, p);
    WentNowhere(c, floor, Arrive(w, p));
    WentLower(c, floor, |Arrive(w, p).arrivals|, Arrive(w, p), Arrive(w, p), floor, |w.arrivals|);
    assert Arrive(w, p).arrivals[|w.arrivals|] == Arrival(p, w.sections);
    ArrivalCloses(c, floor, w, p, Arrive(w, p));
  }

  /** A new place whose section is filed at once. */
  lemma ArrivesAndFiles(c: Context, floor: int, w: Walk, p: Place, s: Section)
    requires NonEmpty(w.sections) && VTablesStand(c, w) && !Contains(w.sections, p.at) && floor < p.at
    requires s.regions != [] && s.typ != VTableSection
    requires Law(c, AddTo(Arrive(w, p), p.at, s).sections, Arrive(w, p).arrivals, |w.arrivals|)
    ensures Went(c, floor, |w.arrivals|, w, AddTo(Arrive(w, p), p.at, s))
    ensures Reaches(w, AddTo(Arrive(w, p), p.at, s), p)
  {
    hide VTablesStand, Went, Contains, Reaches, Law;
    ArriveStays(c, w, p);
    assert FiledFor(c.binary, Arrive(w, p).arrivals[|w.arrivals|], p.at);
    FilesFor(c, floor, |w.arrivals|, Arrive(w, p), p.at, s);
    ArrivalCloses(c, floor, w, p, AddTo(Arrive(w, p), p.at, s));
  }

  lemma NotThere(m: Sections, at: nat)
    requires NonEmpty(m) && !Contains(m, at)
    ensures at !in m
  {
  }
}
