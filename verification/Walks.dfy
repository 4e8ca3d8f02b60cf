/**
 The annotator's walk as a function of the schema and the binary: what each step reads, files and
 follows, which places it comes to, and which vectors of unions. Where the source reads the null field of a vtable
 entry this walk goes on, so that the vectors do not depend on whether it happens. Every offset that is followed
 is strictly larger than the place it is read at, so that the walk ends on any input.
 */
module Walks {
  import opened Codec
  import opened Wrappers
  import opened Annotated
  import opened Sorting
  import opened Gaps

  /** The size of the smallest binary that is looked at. */
  const MIN_BUFFER_SIZE := 12

  /** One past the largest id of a vtable entry. */
  const ID_LIMIT := 0x1_0000

  datatype Context = Context(schema: Schema, ranks: seq<nat>, binary: seq<byte>)

  /** A schema without circular or empty structs, and a binary that is looked at and fits an address space. */
  predicate Walkable(c: Context) {
    SchemaOk(c.schema, c.ranks) && MIN_BUFFER_SIZE <= |c.binary| < 0x4000_0000_0000_0000
  }

  predicate IsTable(s: Schema, index: int) {
    IsObject(s, index) && !s.objects[index].isStruct
  }

  function FieldsOf(c: Context, table: nat): seq<Field>
    requires IsTable(c.schema, table)
  {
    c.schema.objects[table].fields
  }

  // ---- Reading ------------------------------------------------------------------------

  predicate IsValidOffset(binary: seq<byte>, offset: nat) {
    offset < |binary|
  }

  predicate IsValidRead(binary: seq<byte>, offset: nat, length: nat) {
    length < |binary| && IsValidOffset(binary, U64(offset + length - 1))
  }

  function RemainingBytes(binary: seq<byte>, offset: nat): (n: nat)
    ensures offset + n <= |binary| || n == 0
    ensures offset < |binary| ==> n > 0 && offset + n == |binary|
  {
    if IsValidOffset(binary, offset) then |binary| - offset else 0
  }

  /** The word at an offset, if it ends inside the binary. */
  function Read(binary: seq<byte>, offset: nat, size: nat): (r: Option<nat>)
    ensures r.Some? ==> offset + size <= |binary| && r.value == Get(binary, offset, size) < Pow256(size)
  {
    if IsValidRead(binary, offset, size) && offset + size <= |binary| then Some(Get(binary, offset, size)) else None
  }

  /** The word at an offset, or zero where there is none. */
  function Word(binary: seq<byte>, at: nat, k: nat): (n: nat)
    ensures n < Pow256(k)
  {
    if at + k <= |binary| then Get(binary, at, k) else 0
  }

  /** What is left of the binary, as one region. */
  function Rest(binary: seq<byte>, offset: nat): Region {
    Region(offset, RemainingBytes(binary, offset), UnknownBytes, RemainingBytes(binary, offset), 0)
  }

  // ---- The header -----------------------------------------------------------------------

  predicate IsPrintable(b: byte) {
    0x20 <= b < 0x7F
  }

  /** Whether four printable bytes stand at `offset`. */
  predicate HasIdentifier(binary: seq<byte>, offset: nat) {
    offset + 4 <= |binary| && forall i :: offset <= i < offset + 4 ==> IsPrintable(binary[i])
  }

  /** The length of the size prefix that is taken for one: eight bytes, four, or none. */
  function PrefixLength(binary: seq<byte>, isSizePrefixed: bool): (n: nat)
    requires MIN_BUFFER_SIZE <= |binary|
    ensures n == 0 || n == 4 || n == 8
  {
    if !isSizePrefixed then 0
    else if Get(binary, 0, 8) <= |binary| then 8
    else if Get(binary, 0, 4) <= |binary| then 4
    else 0
  }

  /** Where the header says the root table is. */
  function RootLocation(binary: seq<byte>, isSizePrefixed: bool): nat
    requires MIN_BUFFER_SIZE <= |binary|
  {
    PrefixLength(binary, isSizePrefixed) + Get(binary, PrefixLength(binary, isSizePrefixed), 4)
  }

  function PrefixRegions(length: nat): seq<Region> {
    if length == 8 then [Region(0, 8, Uint64, 0, 0)] else if length == 4 then [Region(0, 4, Uint32, 0, 0)] else []
  }

  /** Size prefix, root offset and file identifier. */
  function HeaderRegions(binary: seq<byte>, isSizePrefixed: bool): seq<Region>
    requires MIN_BUFFER_SIZE <= |binary|
  {
    var at := PrefixLength(binary, isSizePrefixed);
    PrefixRegions(at) + [Region(at, 4, UOffset, 0, RootLocation(binary, isSizePrefixed))]
    + (if HasIdentifier(binary, at + 4) then [Region(at + 4, 4, Chars, 4, 0)] else [])
  }

  /**
   The header from the first bytes: the first eight as a number are the prefix if that is no larger
   than the binary, or else the first four. Behind it stand the offset to the root, and the identifier if
   the next four bytes are printable.
   */
  lemma HeaderMeans(binary: seq<byte>, isSizePrefixed: bool)
    requires MIN_BUFFER_SIZE <= |binary|
    ensures var n := if isSizePrefixed && Get(binary, 0, 8) <= |binary| then 8
                     else if isSizePrefixed && Get(binary, 0, 4) <= |binary| then 4 else 0;
      && RootLocation(binary, isSizePrefixed) == n + Get(binary, n, 4)
      && HeaderRegions(binary, isSizePrefixed) ==
           (if n == 8 then [Region(0, 8, Uint64, 0, 0)] else if n == 4 then [Region(0, 4, Uint32, 0, 0)] else [])
           + [Region(n, 4, UOffset, 0, n + Get(binary, n, 4))]
           + (if n + 8 <= |binary| && forall i :: n + 4 <= i < n + 8 ==> 0x20 <= binary[i] <= 0x7e
              then [Region(n + 4, 4, Chars, 4, 0)] else [])
  {
  }

  // ---- Structs --------------------------------------------------------------------------

  /** Regions, and where they end. */
  datatype Piece = Piece(added: seq<Region>, next: nat)

  /** A scalar of `size` bytes, or what remains of the binary. */
  function ScalarPiece(binary: seq<byte>, at: nat, size: nat, typ: RegionType): Piece {
    if IsValidRead(binary, at, size) then Piece([Region(at, size, typ, 0, 0)], at + size)
    else Piece([Rest(binary, at)], at + RemainingBytes(binary, at))
  }

  function Join(p: Piece, q: Piece): Piece {
    Piece(p.added + q.added, q.next)
  }

  /** The padding behind a field, if it is inside the binary. */
  function Padded(binary: seq<byte>, p: Piece, padding: nat): Piece {
    if padding > 0 && IsValidOffset(binary, p.next + padding)
    then Piece(p.added + [Region(p.next, padding, Uint8, padding, 0)], p.next + padding) else p
  }

  function BuildStruct(c: Context, at: nat, index: nat): (p: Piece)
    requires SchemaOk(c.schema, c.ranks) && IsObject(c.schema, index)
    ensures IsStruct(c.schema, index) ==> p.added != []
    decreases c.ranks[index], 2
  {
    assert ObjectOk(c.schema, c.ranks, index);
    if c.schema.objects[index].isStruct
      then StructUpTo(c, at, index, |c.schema.objects[index].fields|) else Piece([], at)
  }

  /** The first `k` fields of a struct. */
  function StructUpTo(c: Context, at: nat, index: nat, k: nat): (p: Piece)
    requires SchemaOk(c.schema, c.ranks) && IsStruct(c.schema, index) && k <= |c.schema.objects[index].fields|
    ensures k > 0 ==> p.added != []
    decreases c.ranks[index], 1, k
  {
    if k == 0 then Piece([], at)
    else
      assert ObjectOk(c.schema, c.ranks, index);
      var p, field := StructUpTo(c, at, index, k - 1), c.schema.objects[index].fields[k - 1];
      assert field in c.schema.objects[index].fields;
      Padded(c.binary, Join(p, StructField(c, p.next, c.ranks[index], field)), field.padding)
  }

  function StructField(c: Context, at: nat, rank: nat, field: Field): (p: Piece)
    requires SchemaOk(c.schema, c.ranks) && StructFieldOk(c.schema, c.ranks, rank, field)
    ensures p.added != []
    decreases rank, 0, 1, 0
  {
    if IsScalar(field.typ.base) then
      ScalarPiece(c.binary, at, GetTypeSize(field.typ.base), GetRegionType(field.typ.base))
    else if field.typ.base == Obj then BuildStruct(c, at, field.typ.index)
    else ArrayUpTo(c, at, rank, field, field.typ.fixedLength).0
  }

  /** One element of an array, and whether it is complete. */
  function ArrayElement(c: Context, at: nat, rank: nat, field: Field): (r: (Piece, bool))
    requires SchemaOk(c.schema, c.ranks) && StructFieldOk(c.schema, c.ranks, rank, field) && field.typ.base == Arr
    ensures r.0.added != []
    decreases rank, 0, 0, 0
  {
    var size := GetTypeSize(field.typ.element);
    if IsScalar(field.typ.element) then
      (ScalarPiece(c.binary, at, size, GetRegionType(field.typ.element)), IsValidRead(c.binary, at, size))
    else (BuildStruct(c, at, field.typ.index), true)
  }

  /** The first `k` elements of an array, and whether they were complete; a scalar that does not fit ends it. */
  function ArrayUpTo(c: Context, at: nat, rank: nat, field: Field, k: nat): (r: (Piece, bool))
    requires SchemaOk(c.schema, c.ranks) && StructFieldOk(c.schema, c.ranks, rank, field) && field.typ.base == Arr
    ensures k > 0 ==> r.0.added != []
    decreases rank, 0, 0, k + 1
  {
    if k == 0 then (Piece([], at), true)
    else
      var (p, complete) := ArrayUpTo(c, at, rank, field, k - 1);
      if !complete then (p, false)
      else
        var (q, ok) := ArrayElement(c, p.next, rank, field);
        (Join(p, q), ok)
  }

  // ---- VTables --------------------------------------------------------------------------

  /** Where the word at the front of a table leads. */
  function LeadOf(binary: seq<byte>, at: nat): nat
    requires at + 4 <= |binary|
  {
    U64(at - GetSigned(binary, at, 4))
  }

  /** The size of a vtable and of its table, if the vtable is whole. */
  function SizesOf(binary: seq<byte>, at: nat): (r: Option<(nat, nat)>)
    ensures r.Some? ==> at + 4 <= at + r.value.0 <= |binary| && r.value.0 < 0x1_0000 && r.value.1 < 0x1_0000
    ensures r.Some? ==> r.value == (Get(binary, at, 2), Get(binary, at + 2, 2))
  {
    Widths();
    match Read(binary, at, 2)
    case None => None
    case Some(size) =>
      if size < 4 || at + size > |binary| then None else Some((size, Get(binary, at + 2, 2)))
  }

  /** The region of a vtable that is not whole. */
  function BrokenVTable(binary: seq<byte>, at: nat): Region {
    if Read(binary, at, 2).None? then Rest(binary, at) else Region(at, 2, Uint16, 0, 0)
  }

  /** The regions and entries of a vtable, and how many of the schema's fields it has. */
  datatype Known = Known(regions: seq<Region>, fields: map<nat, Entry>, processed: nat)

  function Insert(m: map<nat, Entry>, id: nat, e: Entry): map<nat, Entry> {
    if id in m then m else m[id := e]
  }

  /** Whether a field at this distance would start outside the binary of the table that the vtable is built for. */
  predicate OutOfReach(binary: seq<byte>, ref: nat, distance: nat) {
    !IsValidOffset(binary, U64(ref + distance - 1))
  }

  /** Whether the vtable gets an entry for a field of the schema. */
  predicate HasKnown(binary: seq<byte>, at: nat, size: nat, ref: nat, id: nat) {
    && at + 4 + id * 2 < at + size && Read(binary, at + 4 + id * 2, 2).Some?
    && !OutOfReach(binary, ref, Read(binary, at + 4 + id * 2, 2).value)
  }

  /** The entries of the first `n` fields of the schema, for the table at `ref`. */
  function KnownUpTo(c: Context, at: nat, size: nat, table: nat, ref: nat, n: nat): (k: Known)
    requires IsTable(c.schema, table) && n <= |FieldsOf(c, table)|
    ensures k.processed <= n
    decreases n
  {
    if n == 0 then Known([], map[], 0)
    else
      var k, id := KnownUpTo(c, at, size, table, ref, n - 1), n - 1;
      var fieldOffset := at + 4 + id * 2;
      if fieldOffset >= at + size then k
      else
        match Read(c.binary, fieldOffset, 2)
        case None => k.(regions := k.regions + [Rest(c.binary, fieldOffset)])
        case Some(distance) =>
          var regions := k.regions + [Region(fieldOffset, 2, VOffset, 0, 0)];
          if OutOfReach(c.binary, ref, distance) then k.(regions := regions)
          else
            Known(regions, Insert(k.fields, id, Entry(Some(id), distance)),
                  if distance == 0 && FieldsOf(c, table)[id].required then k.processed else k.processed + 1)
  }

  /** How many entries a vtable is taken to have: three times as many as the schema's at most, in 16 bits. */
  function Expected(size: nat, processed: nat): int {
    if (processed * 3) % 0x1_0000 < (size - 4) / 2 then (processed * 3) % 0x1_0000 else (size - 4) / 2
  }

  /** The regions of the entries from the number of processed fields up to `n`; those not there yet get no field. */
  function UnknownUpTo(c: Context, at: nat, known: Known, n: nat): (k: Known)
    ensures k.processed == known.processed
    decreases n
  {
    if n <= known.processed then Known([], known.fields, known.processed)
    else
      var k, id := UnknownUpTo(c, at, known, n - 1), n - 1;
      var fieldOffset := at + 4 + id * 2;
      match Read(c.binary, fieldOffset, 2)
      case None => k.(regions := k.regions + [Rest(c.binary, fieldOffset)])
      case Some(distance) =>
        Known(k.regions + [Region(fieldOffset, 2, VOffset, 0, 0)],
              Insert(k.fields, id, Entry(None, distance)), k.processed)
  }

  /** What the entries of the schema's fields hold. */
  lemma {:induction false} KnownEntry(c: Context, at: nat, size: nat, table: nat, ref: nat, n: nat, id: nat)
    requires IsTable(c.schema, table) && n <= |FieldsOf(c, table)|
    ensures var k := KnownUpTo(c, at, size, table, ref, n);
      && (id in k.fields <==> id < n && HasKnown(c.binary, at, size, ref, id))
      && (id in k.fields
        ==> at + 6 + id * 2 <= |c.binary| && k.fields[id] == Entry(Some(id), Word(c.binary, at + 4 + id * 2, 2)))
    decreases n
  {
    hide OutOfReach, IsValidRead;
    if n > 0 {
      KnownEntry(c, at, size, table, ref, n - 1, id);
    }
  }

  /** What the entries behind them hold. */
  lemma {:induction false} UnknownEntry(c: Context, at: nat, known: Known, n: nat, id: nat)
    ensures var k := UnknownUpTo(c, at, known, n);
      && (id in k.fields
        <==> id in known.fields || (known.processed <= id < n && Read(c.binary, at + 4 + id * 2, 2).Some?))
      && (id in known.fields ==> k.fields[id] == known.fields[id])
      && (id in k.fields && id !in known.fields ==>
           at + 6 + id * 2 <= |c.binary| && k.fields[id] == Entry(None, Word(c.binary, at + 4 + id * 2, 2)))
    decreases n
  {
    hide IsValidRead;
    if n > known.processed {
      UnknownEntry(c, at, known, n - 1, id);
    }
  }

  /** All entries of a whole vtable, as they are made for the table at `ref`. */
  function EntriesFor(c: Context, at: nat, table: nat, ref: nat): (k: Known)
    requires IsTable(c.schema, table) && SizesOf(c.binary, at).Some?
    ensures k.regions != []
  {
    var size := SizesOf(c.binary, at).value.0;
    var known := KnownUpTo(c, at, size, table, ref, |FieldsOf(c, table)|);
    var all := UnknownUpTo(c, at, known, Expected(size, known.processed));
    all.(regions := [Region(at, 2, Uint16, 0, 0), Region(at + 2, 2, Uint16, 0, 0)] + known.regions + all.regions)
  }

  /** An entry has the word that stands in the binary, and the schema's field with its id, or none. */
  lemma EntryMeans(c: Context, at: nat, table: nat, ref: nat, id: nat)
    requires SchemaOk(c.schema, c.ranks) && IsTable(c.schema, table) && SizesOf(c.binary, at).Some?
    ensures var size, fields := SizesOf(c.binary, at).value.0, EntriesFor(c, at, table, ref).fields;
      var processed := KnownUpTo(c, at, size, table, ref, |FieldsOf(c, table)|).processed;
      var known := id < |FieldsOf(c, table)| && HasKnown(c.binary, at, size, ref, id);
      && (id in fields
        <==> known || (processed <= id < Expected(size, processed) && Read(c.binary, at + 4 + id * 2, 2).Some?))
      && (id in fields ==> at + 6 + id * 2 <= |c.binary| && id < ID_LIMIT)
      && (id in fields ==> fields[id] == Entry(if known then Some(id) else None, Word(c.binary, at + 4 + id * 2, 2)))
  {
    assert ObjectOk(c.schema, c.ranks, table);
    hide OutOfReach, IsValidRead, SchemaOk, Word, KnownUpTo, UnknownUpTo, HasKnown;
    var size := SizesOf(c.binary, at).value.0;
    var k := KnownUpTo(c, at, size, table, ref, |FieldsOf(c, table)|);
    KnownEntry(c, at, size, table, ref, |FieldsOf(c, table)|, id);
    UnknownEntry(c, at, k, Expected(size, k.processed), id);
  }

  predicate EntryOk(s: Schema, table: nat, id: nat, e: Entry)
    requires IsTable(s, table)
  {
    e.offset < 0x1_0000 && (e.field.Some? ==> e.field.value == id && id < |s.objects[table].fields|)
  }

  ghost predicate EntriesOk(s: Schema, table: nat, fields: map<nat, Entry>)
    requires IsTable(s, table)
  {
    forall id: nat | id in fields :: id < ID_LIMIT && EntryOk(s, table, id, fields[id])
  }

  lemma EntriesAreOk(c: Context, at: nat, table: nat, ref: nat)
    requires SchemaOk(c.schema, c.ranks) && IsTable(c.schema, table) && SizesOf(c.binary, at).Some?
    ensures EntriesOk(c.schema, table, EntriesFor(c, at, table, ref).fields)
  {
    var fields := EntriesFor(c, at, table, ref).fields;
    forall id: nat | id in fields
      ensures id < ID_LIMIT && EntryOk(c.schema, table, id, fields[id])
    {
      Widths();
      hide EntriesFor, SchemaOk, HasKnown, KnownUpTo, Expected;
      EntryMeans(c, at, table, ref, id);
    }
  }

  /** The vtable at `at`, as it is made for the table at `ref`. */
  function MakeVTable(c: Context, at: nat, table: nat, ref: nat): (v: VTable)
    requires SchemaOk(c.schema, c.ranks) && IsTable(c.schema, table) && SizesOf(c.binary, at).Some?
    ensures EntriesOk(c.schema, table, v.fields)
  {
    hide *;
    EntriesAreOk(c, at, table, ref);
    VTable(table, ref, EntriesFor(c, at, table, ref).fields, SizesOf(c.binary, at).value.1)
  }

  // ---- The state of the walk ------------------------------------------------------------

  /** A vector of unions that the walk comes to: field `id` of the table at `parent`. */
  datatype Visit = Visit(parent: nat, table: nat, id: nat, vector: nat, builder: nat)

  /** What the walk comes to: a table, a string, a vector in a field of the table at `parent`, a struct of a union. */
  datatype Place =
    | TablePlace(at: nat, typ: SectionType, table: nat)
    | StringPlace(at: nat)
    | VectorPlace(at: nat, table: nat, id: nat, parent: nat, builder: nat)
    | StructPlace(at: nat, index: nat)

  /** The walk comes to a place, and the sections that are filed by then. */
  datatype Arrival = Arrival(place: Place, before: Sections)

  datatype Walk = Walk(vtables: map<nat, seq<VTable>>, sections: Sections, visits: seq<Visit>, arrivals: seq<Arrival>)

  function Arrive(w: Walk, place: Place): Walk {
    w.(arrivals := w.arrivals + [Arrival(place, w.sections)])
  }

  /** The walk after a step, and the regions that the step adds to a section. */
  datatype Progress = Progress(w: Walk, added: seq<Region>)

  /** Both tables are inside the binary, and lead to one and the same whole vtable. */
  predicate ShareVTable(binary: seq<byte>, a: nat, b: nat) {
    && a + 4 <= |binary| && b + 4 <= |binary| && LeadOf(binary, a) == LeadOf(binary, b)
    && SizesOf(binary, LeadOf(binary, a)).Some?
  }

  /** The distance that the table's vtable gives for field `id`. */
  function Distance(binary: seq<byte>, table: nat, id: nat): nat
    requires table + 4 <= |binary|
  {
    Word(binary, LeadOf(binary, table) + 4 + 2 * id, 2)
  }

  /**
   The entry of field `id` in the vtable of the table at `parent`, made for the table at `builder`,
   has no field: the field is out of reach there, so that the schema's field is passed over; but it
   is among the entries that are added from the number of processed fields on.
   */
  predicate NullEntry(c: Context, parent: nat, table: nat, id: nat, builder: nat)
    requires IsTable(c.schema, table) && ShareVTable(c.binary, parent, builder)
  {
    var at := LeadOf(c.binary, parent);
    var size := SizesOf(c.binary, at).value.0;
    var processed := KnownUpTo(c, at, size, table, builder, |FieldsOf(c, table)|).processed;
    && processed <= id < Expected(size, processed)
    && OutOfReach(c.binary, builder, Distance(c.binary, parent, id))
  }

  /** Where the types of a vector of unions start, by the parent's word for them. */
  function TypesAt(binary: seq<byte>, parent: nat, distance: nat): nat {
    parent + distance + Word(binary, parent + distance, 2) + 4
  }

  /** The word of an offset in a vector, and where it leads; none at the end of the binary. */
  function Target(binary: seq<byte>, offset: nat): (r: Option<nat>)
    ensures r.Some? ==> offset + 4 <= |binary| && r.value >= offset
  {
    match Read(binary, offset, 4)
    case None => None
    case Some(relative) => Some(offset + relative)
  }

  function LengthSize(t: Type): (n: nat)
    ensures 4 <= n <= 8
  {
    if t.base == Vec64 then 8 else 4
  }

  /** The vector's first element leads into the binary, and some type that is read for it is inside the binary. */
  predicate FirstElementRead(binary: seq<byte>, start: nat, length: nat, types: nat) {
    && length > 0 && Target(binary, start).Some? && IsValidOffset(binary, Target(binary, start).value)
    && (types < |binary| || types + length > 0x1_0000_0000_0000_0000)
  }

  /** At this vector of unions the source reads the field of an entry that has none. */
  predicate Danger(c: Context, v: Visit) {
    && IsTable(c.schema, v.table) && 0 < v.id < |FieldsOf(c, v.table)| && ShareVTable(c.binary, v.parent, v.builder)
    && NullEntry(c, v.parent, v.table, v.id - 1, v.builder)
    && var distance := Distance(c.binary, v.parent, v.id - 1);
       var size := LengthSize(FieldsOf(c, v.table)[v.id].typ);
       && v.parent + distance + 2 <= |c.binary|
       && FirstElementRead(c.binary, v.vector + size, Word(c.binary, v.vector, size),
         TypesAt(c.binary, v.parent, distance))
  }

  ghost predicate Doomed(c: Context, visits: seq<Visit>) {
    exists v :: v in visits && Danger(c, v)
  }

  /** A remembered vtable is the one at its offset, made for a table that leads there. */
  ghost predicate Remembered(c: Context, at: nat, v: VTable)
    requires SchemaOk(c.schema, c.ranks)
  {
    && IsTable(c.schema, v.table) && ShareVTable(c.binary, v.builder, v.builder) && LeadOf(c.binary, v.builder) == at
    && v == MakeVTable(c, at, v.table, v.builder)
  }

  /** A vector of unions, with two tables that share its vtable. */
  ghost predicate VisitOk(c: Context, v: Visit) {
    && IsTable(c.schema, v.table) && v.id < |FieldsOf(c, v.table)| && FieldsOf(c, v.table)[v.id].typ.element == Union
    && ShareVTable(c.binary, v.parent, v.builder)
  }

  ghost predicate Tracked(c: Context, w: Walk) {
    && Walkable(c) && NonEmpty(w.sections)
    && (forall at | at in w.vtables :: forall v | v in w.vtables[at] :: Remembered(c, at, v))
    && (forall v | v in w.visits :: VisitOk(c, v))
  }

  /** A step from `w` to `w1`: what has been visited stays visited. */
  ghost predicate Continues(c: Context, w: Walk, w1: Walk) {
    Tracked(c, w1) && (Doomed(c, w.visits) ==> Doomed(c, w1.visits))
  }

  lemma TrackedIsWalkable(c: Context, w: Walk)
    requires Tracked(c, w)
    ensures Walkable(c)
  {
  }

  lemma StandsStill(c: Context, w: Walk)
    requires Tracked(c, w)
    ensures Continues(c, w, w)
  {
    hide Tracked, Doomed;
  }

  lemma ContinuesOn(c: Context, w: Walk, w1: Walk, w2: Walk)
    requires Continues(c, w, w1) && Continues(c, w1, w2)
    ensures Continues(c, w, w2)
  {
    hide Tracked, Doomed;
  }

  lemma ArrivesContinues(c: Context, w: Walk, place: Place)
    requires Tracked(c, w)
    ensures Continues(c, w, Arrive(w, place)) && Tracked(c, Arrive(w, place))
    ensures Arrive(w, place).visits == w.visits && Arrive(w, place).sections == w.sections
  {
    hide Remembered, VisitOk, Walkable, Doomed;
  }

  function AddTo(w: Walk, at: nat, s: Section): Walk {
    w.(sections := Add(w.sections, at, s))
  }

  lemma AddKeepsTracked(c: Context, w: Walk, at: nat, s: Section)
    requires Tracked(c, w) && s.regions != []
    ensures Tracked(c, AddTo(w, at, s)) && AddTo(w, at, s).visits == w.visits
  {
    hide MakeVTable, Danger, SchemaOk;
  }

  // ---- VTables that are shared ------------------------------------------------------------

  /** The vtable for the type of table, if it has been made before. */
  function Lookup(known: seq<VTable>, table: nat): (r: Option<VTable>)
    ensures r.Some? ==> r.value in known && r.value.table == table
    ensures r.None? ==> forall v | v in known :: v.table != table
  {
    if known == [] then None else if known[0].table == table then Some(known[0]) else Lookup(known[1..], table)
  }

  /** The vtables at `at` in the walk so far. */
  function KnownAt(w: Walk, at: nat): seq<VTable> {
    if at in w.vtables then w.vtables[at] else []
  }

  lemma FiledKeepsTracked(c: Context, w: Walk, at: nat, vs: seq<VTable>, sections: Sections)
    requires Tracked(c, w) && NonEmpty(sections) && forall v | v in vs :: Remembered(c, at, v)
    ensures Tracked(c, w.(vtables := w.vtables[at := vs], sections := sections))
  {
    hide Remembered, VisitOk, Danger, Walkable;
  }

  lemma KnownIsRemembered(c: Context, w: Walk, at: nat)
    requires Tracked(c, w)
    ensures NonEmpty(w.sections) && SchemaOk(c.schema, c.ranks)
      && forall v | v in KnownAt(w, at) :: Remembered(c, at, v)
  {
    hide Remembered, VisitOk, Danger, SchemaOk;
  }

  datatype Found = Found(w: Walk, vtable: Option<VTable>)

  /** The vtable made for the table at `ref`, filed if it is the first at its place; none if it is not whole. */
  function BuildVTable(c: Context, w: Walk, at: nat, table: nat, ref: nat): (f: Found)
    requires Tracked(c, w) && IsTable(c.schema, table) && ref + 4 <= |c.binary| && at == LeadOf(c.binary, ref)
    ensures Tracked(c, f.w) && SchemaOk(c.schema, c.ranks) && f.w.visits == w.visits
    ensures f.vtable.Some? ==> f.vtable.value.table == table && Remembered(c, at, f.vtable.value)
  {
    hide *;
    KnownIsRemembered(c, w, at);
    var known := KnownAt(w, at);
    if known == [] && Contains(w.sections, at) then Found(w, None)
    else if SizesOf(c.binary, at).None? then
      AddKeepsTracked(c, w, at, Section(VTableSection, [BrokenVTable(c.binary, at)]));
      Found(AddTo(w, at, Section(VTableSection, [BrokenVTable(c.binary, at)])), None)
    else
      var v, regions := MakeVTable(c, at, table, ref), EntriesFor(c, at, table, ref).regions;
      var sections := if known == [] then w.sections[at := Section(VTableSection, regions)] else w.sections;
      MadeIsRemembered(c, at, table, ref);
      FilesEntries(w.sections, at, regions);
      FiledKeepsTracked(c, w, at, known + [v], sections);
      Found(w.(vtables := w.vtables[at := known + [v]], sections := sections), Some(v))
  }

  /** One vtable for each pair of offset and table type. */
  function GetOrBuildVTable(c: Context, w: Walk, at: nat, table: nat, ref: nat): (f: Found)
    requires Tracked(c, w) && IsTable(c.schema, table) && ref + 4 <= |c.binary| && at == LeadOf(c.binary, ref)
    ensures Tracked(c, f.w) && SchemaOk(c.schema, c.ranks) && f.w.visits == w.visits
    ensures f.vtable.Some? ==> f.vtable.value.table == table && Remembered(c, at, f.vtable.value)
  {
    hide *;
    KnownIsRemembered(c, w, at);
    FiledKeepsTracked(c, w, at, KnownAt(w, at), w.sections);
    var w1 := w.(vtables := w.vtables[at := KnownAt(w, at)], sections := w.sections);
    match Lookup(KnownAt(w, at), table)
    case Some(v) => Found(w1, Some(v))
    case None => BuildVTable(c, w1, at, table, ref)
  }

  lemma FilesEntries(m: Sections, at: nat, regions: seq<Region>)
    requires NonEmpty(m) && regions != []
    ensures NonEmpty(m[at := Section(VTableSection, regions)])
  {
  }

  lemma MadeIsRemembered(c: Context, at: nat, table: nat, ref: nat)
    requires SchemaOk(c.schema, c.ranks) && IsTable(c.schema, table) && SizesOf(c.binary, at).Some?
    requires ref + 4 <= |c.binary| && at == LeadOf(c.binary, ref)
    ensures Remembered(c, at, MakeVTable(c, at, table, ref)) && MakeVTable(c, at, table, ref).table == table
  {
    hide SchemaOk, EntriesFor, SizesOf, LeadOf;
  }

  // ---- Strings ----------------------------------------------------------------------------

  /** Length, characters and terminator; the length only if the rest is not inside the binary. */
  function StringRegions(binary: seq<byte>, at: nat): (rs: seq<Region>)
    ensures rs != []
  {
    match Read(binary, at, 4)
    case None => [Rest(binary, at)]
    case Some(size) =>
      [Region(at, 4, Uint32, 0, 0)]
      + (if IsValidOffset(binary, at + 4 + size)
         then [Region(at + 4, size, Chars, size, 0), Region(at + 4 + size, 1, Chars, 0, 0)] else [])
  }

  function BuildString(c: Context, w: Walk, at: nat): (w1: Walk)
    requires Tracked(c, w)
    ensures Tracked(c, w1) && w1.visits == w.visits
  {
    hide *;
    KnownIsRemembered(c, w, at);
    ArrivesContinues(c, w, StringPlace(at));
    var w0 := Arrive(w, StringPlace(at));
    if Contains(w.sections, at) then w0
    else
      AddKeepsTracked(c, w0, at, Section(StringSection, StringRegions(c.binary, at)));
      AddTo(w0, at, Section(StringSection, StringRegions(c.binary, at)))
  }

  // ---- Elements of vectors ------------------------------------------------------------------

  /** An offset word in a vector, or what remains of the binary. */
  function OffsetRegion(binary: seq<byte>, offset: nat): Region {
    match Target(binary, offset)
    case None => Rest(binary, offset)
    case Some(target) => Region(offset, 4, UOffset, 0, target)
  }

  /** Structs are inline; a struct without bytes ends the vector. */
  function StructsFrom(c: Context, index: nat, length: nat, i: nat, p: Piece): Piece
    requires SchemaOk(c.schema, c.ranks) && IsObject(c.schema, index)
    decreases length - i
  {
    if i >= length then p
    else
      var q := BuildStruct(c, p.next, index);
      if q.next == p.next then Join(p, q) else StructsFrom(c, index, length, i + 1, Join(p, q))
  }

  function ScalarsFrom(binary: seq<byte>, t: BaseType, length: nat, i: nat, p: Piece): Piece
    decreases length - i
  {
    if i >= length then p
    else
      var q := Join(p, ScalarPiece(binary, p.next, GetTypeSize(t), GetRegionType(t)));
      if !IsValidRead(binary, p.next, GetTypeSize(t)) then q else ScalarsFrom(binary, t, length, i + 1, q)
  }

  lemma NextScalar(binary: seq<byte>, t: BaseType, length: nat, i: nat, p: Piece)
    ensures i >= length ==> ScalarsFrom(binary, t, length, i, p) == p
    ensures i < length ==>
      var q := Join(p, ScalarPiece(binary, p.next, GetTypeSize(t), GetRegionType(t)));
      ScalarsFrom(binary, t, length, i, p)
        == if !IsValidRead(binary, p.next, GetTypeSize(t)) then q else ScalarsFrom(binary, t, length, i + 1, q)
  {
    hide GetTypeSize, GetRegionType, IsValidRead, ScalarPiece, Join;
  }

  function StringsFrom(c: Context, w: Walk, length: nat, i: nat, offset: nat, added: seq<Region>): (p: Progress)
    requires Tracked(c, w)
    ensures Continues(c, w, p.w)
    decreases length - i
  {
    hide Tracked, Doomed, Read;
    if i >= length then Progress(w, added)
    else
      var all := added + [OffsetRegion(c.binary, offset)];
      match Target(c.binary, offset)
      case None => Progress(w, all)
      case Some(target) =>
        var w1 := if IsValidOffset(c.binary, target) then BuildString(c, w, target) else w;
        StringsFrom(c, w1, length, i + 1, offset + 4, all)
  }

  lemma NextString(c: Context, w: Walk, length: nat, i: nat, offset: nat, added: seq<Region>)
    requires Tracked(c, w)
    ensures var p := StringsFrom(c, w, length, i, offset, added);
      var all, target := added + [OffsetRegion(c.binary, offset)], Target(c.binary, offset);
      && (i >= length ==> p == Progress(w, added))
      && (i < length && target.None? ==> p == Progress(w, all))
      && (i < length && target.Some? ==>
           var w1 := if IsValidOffset(c.binary, target.value) then BuildString(c, w, target.value) else w;
           p == StringsFrom(c, w1, length, i + 1, offset + 4, all))
  {
    hide Tracked, Doomed, BuildString, OffsetRegion;
  }

  /** The offsets lead past the vector, so never back to the table that holds it. */
  function TablesFrom(c: Context, w: Walk, vector: nat, table: nat, length: nat, i: nat, offset: nat,
                      added: seq<Region>)
    : (p: Progress)
    requires Tracked(c, w) && IsTable(c.schema, table) && vector < |c.binary| && vector < offset
    ensures Continues(c, w, p.w)
    decreases |c.binary| - vector, 0, length - i
  {
    hide Tracked, Doomed, Read, IsTable;
    if i >= length then Progress(w, added)
    else
      var all := added + [OffsetRegion(c.binary, offset)];
      match Target(c.binary, offset)
      case None => Progress(w, all)
      case Some(target) =>
        TablesFrom(c, FollowTable(c, w, vector, table, target).w, vector, table, length, i + 1, offset + 4, all)
  }

  /** What the offset at `target` adds to the walk. */
  function FollowTable(c: Context, w: Walk, vector: nat, table: nat, target: nat): (p: Progress)
    requires Tracked(c, w) && IsTable(c.schema, table) && vector < target
    ensures Continues(c, w, p.w)
    decreases |c.binary| - vector, 0, 0
  {
    hide Tracked, Doomed, IsTable;
    if IsValidOffset(c.binary, target) then BuildTable(c, w, target, TableSection, table) else Progress(w, [])
  }

  lemma NextTable(c: Context, w: Walk, vector: nat, table: nat, length: nat, i: nat, offset: nat, added: seq<Region>)
    requires Tracked(c, w) && IsTable(c.schema, table) && vector < |c.binary| && vector < offset
    ensures var p := TablesFrom(c, w, vector, table, length, i, offset, added);
      var all, target := added + [OffsetRegion(c.binary, offset)], Target(c.binary, offset);
      && (i >= length ==> p == Progress(w, added))
      && (i < length && target.None? ==> p == Progress(w, all))
      && (i < length && target.Some? ==>
           var w1 := FollowTable(c, w, vector, table, target.value).w;
           p == TablesFrom(c, w1, vector, table, length, i + 1, offset + 4, all))
  {
    hide Tracked, Doomed, IsTable, FollowTable, OffsetRegion;
  }

  predicate IsValidUnionValue(s: Schema, enumId: int, value: nat) {
    0 <= enumId < |s.enums| && value < |s.enums[enumId]|
  }

  /** An element that is passed over may leave the cursor where it is. */
  function UnionsFrom(c: Context, w: Walk, vector: nat, enumId: int, types: nat, length: nat, i: nat, offset: nat,
                      added: seq<Region>)
    : (p: Progress)
    requires Tracked(c, w) && vector < |c.binary| && vector < offset
    ensures Continues(c, w, p.w)
    decreases |c.binary| - vector, 0, length - i
  {
    hide Tracked, Doomed, Read, IsValidUnionValue;
    if i >= length then Progress(w, added)
    else
      match Target(c.binary, offset)
      case None => Progress(w, added + [OffsetRegion(c.binary, offset)])
      case Some(target) =>
        if !IsValidOffset(c.binary, target) then
          UnionsFrom(c, w, vector, enumId, types, length, i + 1, offset, added + [OffsetRegion(c.binary, offset)])
        else
          match Read(c.binary, U64(types + i), 1)
          case None =>
            UnionsFrom(c, w, vector, enumId, types, length, i + 1, offset,
              added + [Region(offset, 0, UnknownBytes, 0, 0)])
          case Some(realizedType) =>
            if !IsValidUnionValue(c.schema, enumId, realizedType) then
              UnionsFrom(c, w, vector, enumId, types, length, i + 1, offset + 4, added)
            else
              var p := BuildUnion(c, w, target, realizedType, enumId);
              UnionsFrom(c, p.w, vector, enumId, types, length, i + 1, offset + 4,
                         added + [OffsetRegion(c.binary, offset)])
  }

  /**
   The same with an entry that has no field: it is read at the first element that has a type, and
   there this walk leaves the vector. The second result is whether there is such an element.
   */
  function NullUnions(binary: seq<byte>, types: nat, length: nat, i: nat, offset: nat, added: seq<Region>)
    : (seq<Region>, bool)
    decreases length - i
  {
    if i >= length then (added, false)
    else
      match Target(binary, offset)
      case None => (added + [OffsetRegion(binary, offset)], false)
      case Some(target) =>
        if !IsValidOffset(binary, target) then
          NullUnions(binary, types, length, i + 1, offset, added + [OffsetRegion(binary, offset)])
        else if Read(binary, U64(types + i), 1).None? then
          NullUnions(binary, types, length, i + 1, offset, added + [Region(offset, 0, UnknownBytes, 0, 0)])
        else (added, true)
  }

  /** The vtable is the one that the table at `parent` leads to. */
  ghost predicate IsVTableOf(c: Context, parent: nat, table: nat, v: VTable) {
    && SchemaOk(c.schema, c.ranks) && IsTable(c.schema, table) && v.table == table && parent + 4 <= |c.binary|
    && Remembered(c, LeadOf(c.binary, parent), v)
  }

  /** The id of the entry that leads to the types. */
  function TypeId(id: nat): nat {
    (id - 1) % 0x1_0000
  }

  lemma EntriesOfVTable(c: Context, parent: nat, table: nat, v: VTable)
    requires IsVTableOf(c, parent, table, v)
    ensures EntriesOk(c.schema, table, v.fields)
  {
    hide SchemaOk, EntriesFor, EntriesOk;
  }

  /** Whether the field of an entry that has none is read, with the word for the types at `field`. */
  predicate ReadsNull(binary: seq<byte>, entry: Entry, field: nat, length: nat, start: nat) {
    && entry.field.None? && Read(binary, field, 2).Some?
    && NullUnions(binary, field + Read(binary, field, 2).value + 4, length, 0, start, []).1
  }

  /** The types come from a second vector, which the word at `field` leads to. */
  function TypedUnions(c: Context, w: Walk, vector: nat, length: nat, enumId: int, entry: Entry, field: nat, start: nat)
    : (p: Progress)
    requires Tracked(c, w) && vector < |c.binary| && vector < start
    ensures Continues(c, w, p.w)
    decreases |c.binary| - vector, 1, 0
  {
    hide Tracked, Doomed, Read, NullUnions;
    match Read(c.binary, field, 2)
    case None => Progress(w, [Rest(c.binary, start)])
    case Some(relative) =>
      if entry.field.Some? then
        UnionsFrom(c, w, vector, enumId, field + relative + 4, length, 0, start, [])
      else
        Progress(w, NullUnions(c.binary, field + relative + 4, length, 0, start, []).0)
  }

  /** Field `id` of the table is a vector of unions, and the one at `vector` has this length. */
  predicate IsUnionVector(c: Context, vector: nat, length: nat, table: nat, id: nat) {
    && vector < |c.binary| && IsTable(c.schema, table) && id < |FieldsOf(c, table)|
    && FieldsOf(c, table)[id].typ.element == Union
    && length == Word(c.binary, vector, LengthSize(FieldsOf(c, table)[id].typ))
  }

  lemma UnionVectorIs(c: Context, vector: nat, length: nat, table: nat, id: nat)
    requires IsUnionVector(c, vector, length, table, id)
    ensures vector < |c.binary| && IsTable(c.schema, table) && id < |FieldsOf(c, table)|
    ensures FieldsOf(c, table)[id].typ.element == Union
    ensures length == Word(c.binary, vector, LengthSize(FieldsOf(c, table)[id].typ))
  {
  }

  /** The entry before the field's own is the one for the types. */
  function UnionVector(c: Context, w: Walk, vector: nat, length: nat, table: nat, id: nat, parent: nat, v: VTable)
    : (p: Progress)
    requires IsUnionVector(c, vector, length, table, id)
    requires Tracked(c, w) && IsVTableOf(c, parent, table, v)
    ensures Continues(c, w, p.w)
    decreases |c.binary| - vector, 1, 1
  {
    hide *;
    UnionVectorIs(c, vector, length, table, id);
    StandsStill(c, w);
    if TypeId(id) !in v.fields then Progress(w, [])
    else
      VisitContinues(c, w, vector, length, table, id, parent, v);
      var entry, w1 := v.fields[TypeId(id)], w.(visits := w.visits + [Visit(parent, table, id, vector, v.builder)]);
      var t := FieldsOf(c, table)[id].typ;
      var p := TypedUnions(c, w1, vector, length, t.index, entry, parent + entry.offset, vector + LengthSize(t));
      ContinuesOn(c, w, w1, p.w);
      p
  }

  function GetElementSize(s: Schema, t: Type): nat
    requires t.element == Obj ==> IsObject(s, t.index)
  {
    if IsScalar(t.element) then GetTypeSize(t.element)
    else if t.element == Obj && s.objects[t.index].isStruct then s.objects[t.index].bytesize
    else 4
  }

  lemma FieldIsOk(c: Context, table: nat, id: nat)
    requires SchemaOk(c.schema, c.ranks) && IsTable(c.schema, table) && id < |FieldsOf(c, table)|
    ensures TableFieldOk(c.schema, FieldsOf(c, table), id)
  {
    assert ObjectOk(c.schema, c.ranks, table);
  }

  /** Inline structs, or offsets to tables. */
  function ObjectElements(c: Context, w: Walk, vector: nat, start: nat, length: nat, index: nat): (p: Progress)
    requires Tracked(c, w) && vector < |c.binary| && vector < start && IsObject(c.schema, index)
    ensures Continues(c, w, p.w)
    decreases |c.binary| - vector, 1
  {
    hide Tracked, Doomed, SchemaOk, StructsFrom;
    TrackedIsWalkable(c, w);
    if c.schema.objects[index].isStruct
      then Progress(w, StructsFrom(c, index, length, 0, Piece([], start)).added)
    else TablesFrom(c, w, vector, index, length, 0, start, [])
  }

  function Elements(c: Context, w: Walk, vector: nat, length: nat, table: nat, id: nat, parent: nat, v: VTable)
    : (p: Progress)
    requires IsTable(c.schema, table) && vector < |c.binary|
    requires id < |FieldsOf(c, table)| && length == Word(c.binary, vector, LengthSize(FieldsOf(c, table)[id].typ))
    requires Tracked(c, w) && IsVTableOf(c, parent, table, v)
    ensures Continues(c, w, p.w)
    decreases |c.binary| - vector, 2
  {
    hide Tracked, Doomed, SchemaOk, Remembered, Word, Read, ScalarsFrom, LengthSize;
    var t := FieldsOf(c, table)[id].typ;
    var start := vector + LengthSize(t);
    FieldIsOk(c, table, id);
    if t.element == Obj then ObjectElements(c, w, vector, start, length, t.index)
    else if t.element == Str then StringsFrom(c, w, length, 0, start, [])
    else if t.element == Union then UnionVector(c, w, vector, length, table, id, parent, v)
    else if IsScalar(t.element) then
      Progress(w, ScalarsFrom(c.binary, t.element, length, 0, Piece([], start)).added)
    else Progress(w, [])
  }

  lemma ElementIsOk(c: Context, table: nat, id: nat)
    requires SchemaOk(c.schema, c.ranks) && IsTable(c.schema, table) && id < |FieldsOf(c, table)|
    ensures FieldsOf(c, table)[id].typ.element == Obj ==> IsObject(c.schema, FieldsOf(c, table)[id].typ.index)
  {
    FieldIsOk(c, table, id);
  }

  /** The elements by their type. */
  lemma ElementsByType(c: Context, w: Walk, vector: nat, length: nat, table: nat, id: nat, parent: nat, v: VTable)
    requires IsTable(c.schema, table) && vector < |c.binary|
    requires id < |FieldsOf(c, table)| && length == Word(c.binary, vector, LengthSize(FieldsOf(c, table)[id].typ))
    requires Tracked(c, w) && IsVTableOf(c, parent, table, v)
    ensures var t := FieldsOf(c, table)[id].typ;
      var start := vector + LengthSize(t);
      && (t.element == Obj ==> IsObject(c.schema, t.index) && 0 <= t.index)
      && Elements(c, w, vector, length, table, id, parent, v)
         == (if t.element == Obj then ObjectElements(c, w, vector, start, length, t.index)
             else if t.element == Str then StringsFrom(c, w, length, 0, start, [])
             else if t.element == Union then UnionVector(c, w, vector, length, table, id, parent, v)
             else if IsScalar(t.element) then
               Progress(w, ScalarsFrom(c.binary, t.element, length, 0, Piece([], start)).added)
             else Progress(w, []))
  {
    hide Tracked, Doomed, SchemaOk, IsVTableOf, Word, Read, ScalarsFrom, LengthSize, ObjectElements, StringsFrom,
      UnionVector, Continues, FieldsOf, IsTable, IsScalar;
    assert IsVTableOf(c, parent, table, v);
    VTableIsOfSchema(c, parent, table, v);
    ElementIsOk(c, table, id);
  }

  lemma VTableIsOfSchema(c: Context, parent: nat, table: nat, v: VTable)
    requires IsVTableOf(c, parent, table, v)
    ensures SchemaOk(c.schema, c.ranks)
  {
  }

  /** Files a section of the walk, which goes on. */
  function Filed(w: Walk, at: nat, typ: SectionType, regions: seq<Region>): Progress {
    Progress(AddTo(w, at, Section(typ, regions)), [])
  }

  lemma FiledContinues(c: Context, w: Walk, at: nat, typ: SectionType, regions: seq<Region>)
    requires Tracked(c, w) && regions != []
    ensures Continues(c, w, Filed(w, at, typ, regions).w) && Filed(w, at, typ, regions).w.visits == w.visits
  {
    hide Tracked, Doomed;
    AddKeepsTracked(c, w, at, Section(typ, regions));
  }

  /** The region of a vector's length. */
  function LengthRegion(t: Type, vector: nat): Region {
    Region(vector, LengthSize(t), if t.base == Vec64 then Uint64 else Uint32, 0, 0)
  }

  /** A vector whose length is read, with its elements. */
  function FillVector(c: Context, w: Walk, vector: nat, length: nat, table: nat, id: nat, parent: nat, v: VTable)
    : (p: Progress)
    requires IsTable(c.schema, table) && vector < |c.binary|
    requires id < |FieldsOf(c, table)| && length == Word(c.binary, vector, LengthSize(FieldsOf(c, table)[id].typ))
    requires Tracked(c, w) && IsVTableOf(c, parent, table, v)
    ensures Continues(c, w, p.w)
    decreases |c.binary| - vector, 3
  {
    hide Tracked, Doomed, IsVTableOf, Word, LengthSize;
    assert IsVTableOf(c, parent, table, v);
    var t := FieldsOf(c, table)[id].typ;
    var p := Elements(c, w, vector, length, table, id, parent, v);
    var typ := if t.base == Vec64 then Vector64Section else VectorSection;
    var regions := [LengthRegion(t, vector)] + p.added;
    FiledContinues(c, p.w, vector, typ, regions);
    Filed(p.w, vector, typ, regions)
  }

  /** The end of the last element, modulo 2^64. */
  function LastItemOffset(s: Schema, vector: nat, t: Type, length: nat): nat
    requires t.element == Obj ==> IsObject(s, t.index)
  {
    U64(vector + LengthSize(t) + length * GetElementSize(s, t))
  }

  /** The end of the last element is only checked. */
  predicate ElementsInside(c: Context, vector: nat, t: Type, length: nat)
    requires t.element == Obj ==> IsObject(c.schema, t.index)
  {
    IsValidOffset(c.binary, U64(LastItemOffset(c.schema, vector, t, length) - 1))
  }

  /** The length of a vector whose elements are inside the binary; the section of any other is filed. */
  function VectorLength(c: Context, w: Walk, vector: nat, t: Type): (r: (Walk, Option<nat>))
    requires Tracked(c, w) && (t.element == Obj ==> IsObject(c.schema, t.index))
    ensures Tracked(c, r.0) && r.0.visits == w.visits
    ensures (r.1.Some? ==> r.0 == w && r.1 == Read(c.binary, vector, LengthSize(t)))
  {
    hide Tracked, Doomed, ElementsInside, IsValidRead;
    match Read(c.binary, vector, LengthSize(t))
    case None =>
      AddKeepsTracked(c, w, vector, Section(VectorSection, [Rest(c.binary, vector)]));
      (AddTo(w, vector, Section(VectorSection, [Rest(c.binary, vector)])), None)
    case Some(length) =>
      if ElementsInside(c, vector, t, length) then (w, Some(length))
      else
        AddKeepsTracked(c, w, vector, Section(VectorSection, [LengthRegion(t, vector)]));
        (AddTo(w, vector, Section(VectorSection, [LengthRegion(t, vector)])), None)
  }

  function BuildVector(c: Context, w: Walk, vector: nat, table: nat, id: nat, parent: nat, v: VTable): (p: Progress)
    requires IsTable(c.schema, table) && vector < |c.binary| && id < |FieldsOf(c, table)|
    requires Tracked(c, w) && IsVTableOf(c, parent, table, v)
    ensures Continues(c, w, p.w)
    decreases |c.binary| - vector, 4
  {
    hide Tracked, Doomed, SchemaOk, Remembered, IsValidRead, Contains, VectorLength;
    var t := FieldsOf(c, table)[id].typ;
    FieldIsOk(c, table, id);
    KnownIsRemembered(c, w, vector);
    ArrivesContinues(c, w, VectorPlace(vector, table, id, parent, v.builder));
    var w0 := Arrive(w, VectorPlace(vector, table, id, parent, v.builder));
    if Contains(w.sections, vector) then Progress(w0, [])
    else
      var (w1, length) := VectorLength(c, w0, vector, t);
      if length.None? then Progress(w1, [])
      else FillVector(c, w1, vector, length.value, table, id, parent, v)
  }

  // ---- Unions -------------------------------------------------------------------------------

  function BuildUnion(c: Context, w: Walk, at: nat, realizedType: nat, enumId: int): (p: Progress)
    requires Tracked(c, w) && at < |c.binary| && IsValidUnionValue(c.schema, enumId, realizedType)
    ensures Continues(c, w, p.w)
    decreases |c.binary| - at, 7
  {
    hide Tracked, Doomed, Contains, ObjectOk;
    KnownIsRemembered(c, w, at);
    var t := c.schema.enums[enumId][realizedType];
    if t.base != Obj then Progress(w, [])
    else if c.schema.objects[t.index].isStruct then
      ArrivesContinues(c, w, StructPlace(at, t.index));
      var w0 := Arrive(w, StructPlace(at, t.index));
      if Contains(w.sections, at) then Progress(w0, [])
      else
        FiledContinues(c, w0, at, UnionSection, BuildStruct(c, at, t.index).added);
        Filed(w0, at, UnionSection, BuildStruct(c, at, t.index).added)
    else BuildTable(c, w, at, TableSection, t.index)
  }

  // ---- Tables -------------------------------------------------------------------------------

  /** The entries with ids below `n` in the order of their ids. */
  function Listed(fields: map<nat, Entry>, n: nat): (list: seq<Entry>)
    ensures forall id: nat | id in fields && id < n :: fields[id] in list
    ensures forall e | e in list :: exists id: nat :: id in fields && fields[id] == e
    decreases n, fields
  {
    if n == 0 then [] else Listed(fields, n - 1) + (if n - 1 in fields then [fields[n - 1]] else [])
  }

  function ByDistance(): Entry -> int {
    (e: Entry) => e.offset
  }

  /** The entries in the order of their offsets, and of their ids where these are equal. */
  function SortedEntries(fields: map<nat, Entry>): seq<Entry> {
    StableSort(Listed(fields, ID_LIMIT), ByDistance())
  }

  predicate IsInlineField(s: Schema, t: Type)
    requires t.base == Obj ==> IsObject(s, t.index)
  {
    if t.base == Obj then s.objects[t.index].isStruct else IsScalar(t.base)
  }

  /** A field that the schema does not have reaches to the next one, or to the end of the table. */
  function UnknownField(binary: seq<byte>, at: nat, field: nat, end: nat, next: Option<nat>): seq<Region> {
    var length := U64((if next.Some? then at + next.value else end) - field);
    if length == 0 then []
    else if !IsValidRead(binary, field, length) then [Rest(binary, field)]
    else [Region(field, length, UnknownBytes, length, 0)]
  }

  /** A union's type stands in the field before it. */
  function UnionField(c: Context, w: Walk, at: nat, word: Region, union: nat, id: nat, enumId: int,
                      fields: map<nat, Entry>)
    : (p: Progress)
    requires Tracked(c, w) && at < union < |c.binary|
    ensures Continues(c, w, p.w)
    decreases |c.binary| - at, 1
  {
    hide Tracked, Doomed, Read, IsValidUnionValue;
    if TypeId(id) !in fields then Progress(w, [])
    else
      var typeOffset := at + fields[TypeId(id)].offset;
      match Read(c.binary, typeOffset, 1)
      case None => Progress(w, [Rest(c.binary, typeOffset)])
      case Some(realizedType) =>
        if !IsValidUnionValue(c.schema, enumId, realizedType) then Progress(w, [])
        else
          var p := BuildUnion(c, w, union, realizedType, enumId);
          Progress(p.w, [word])
  }

  /** What a field's offset leads to. */
  function FollowField(c: Context, w: Walk, at: nat, word: Region, table: nat, id: nat, v: VTable): (p: Progress)
    requires IsTable(c.schema, table) && at < word.pointsTo < |c.binary|
    requires id < |FieldsOf(c, table)| && !IsScalar(FieldsOf(c, table)[id].typ.base)
    requires FieldsOf(c, table)[id].typ.base == Obj ==> IsTable(c.schema, FieldsOf(c, table)[id].typ.index)
    requires Tracked(c, w) && IsVTableOf(c, at, table, v)
    ensures Continues(c, w, p.w)
    decreases |c.binary| - at, 2, 0
  {
    hide Tracked, Doomed, IsVTableOf, IsTable, IsScalar;
    assert IsVTableOf(c, at, table, v);
    var t := FieldsOf(c, table)[id].typ;
    match t.base
    case Obj => WithWord(BuildTable(c, w, word.pointsTo, TableSection, t.index), word)
    case Str => Progress(BuildString(c, w, word.pointsTo), [word])
    case Vec => WithWord(BuildVector(c, w, word.pointsTo, table, id, at, v), word)
    case Vec64 => WithWord(BuildVector(c, w, word.pointsTo, table, id, at, v), word)
    case Union => UnionField(c, w, at, word, word.pointsTo, id, t.index, v.fields)
    case _ => Progress(w, [])
  }

  /** A field that holds an offset leads to a place behind the field. */
  function OffsetField(c: Context, w: Walk, at: nat, field: nat, table: nat, id: nat, v: VTable): (p: Progress)
    requires IsTable(c.schema, table) && at < field < |c.binary|
    requires id < |FieldsOf(c, table)| && !IsScalar(FieldsOf(c, table)[id].typ.base)
    requires Tracked(c, w) && IsVTableOf(c, at, table, v)
    ensures Continues(c, w, p.w)
    decreases |c.binary| - at, 2, 1
  {
    hide Tracked, Doomed, SchemaOk, Remembered, Read, Get, IsScalar, FollowField;
    var t := FieldsOf(c, table)[id].typ;
    FieldIsOk(c, table, id);
    if IsInlineField(c.schema, t) then
      Progress(w, if t.base == Obj then BuildStruct(c, field, t.index).added else [])
    else
      var relative := Read(c.binary, field, 4);
      if relative.None? || relative.value == 0 then Progress(w, [Rest(c.binary, field)])
      else
        var word := Region(field, 4, UOffset, 0, field + relative.value);
        if !IsValidOffset(c.binary, word.pointsTo) then Progress(w, [word])
        else FollowField(c, w, at, word, table, id, v)
  }

  function WithWord(p: Progress, word: Region): Progress {
    p.(added := [word])
  }

  function TableField(c: Context, w: Walk, at: nat, end: nat, table: nat, v: VTable, entry: Entry, next: Option<nat>)
    : (p: Progress)
    requires IsTable(c.schema, table) && at < |c.binary|
    requires entry.field.Some? ==> entry.field.value < |FieldsOf(c, table)|
    requires Tracked(c, w) && IsVTableOf(c, at, table, v)
    ensures Continues(c, w, p.w)
    decreases |c.binary| - at, 3
  {
    hide Tracked, Doomed, SchemaOk, Remembered, Read;
    var field := at + entry.offset;
    if entry.offset == 0 || !IsValidOffset(c.binary, field) then Progress(w, [])
    else
      match entry.field
      case None => Progress(w, UnknownField(c.binary, at, field, end, next))
      case Some(id) =>
        var base := FieldsOf(c, table)[id].typ.base;
        if IsScalar(base) then
          Progress(w, ScalarPiece(c.binary, field, GetTypeSize(base), GetRegionType(base)).added)
        else OffsetField(c, w, at, field, table, id, v)
  }

  ghost predicate FieldsInSchema(c: Context, table: nat, fields: seq<Entry>)
    requires IsTable(c.schema, table)
  {
    forall e | e in fields && e.field.Some? :: e.field.value < |FieldsOf(c, table)|
  }

  /** The fields from number `i` on. */
  function TableFieldsFrom(c: Context, w: Walk, at: nat, end: nat, table: nat, v: VTable, fields: seq<Entry>, i: nat,
                           added: seq<Region>)
    : (p: Progress)
    requires at < |c.binary| && i <= |fields| && IsTable(c.schema, table) && FieldsInSchema(c, table, fields)
    requires Tracked(c, w) && IsVTableOf(c, at, table, v)
    ensures Continues(c, w, p.w)
    decreases |c.binary| - at, 4, |fields| - i
  {
    hide Tracked, Doomed, IsVTableOf;
    if i == |fields| then Progress(w, added)
    else
      assert fields[i] in fields && IsVTableOf(c, at, table, v);
      var next := if i + 1 < |fields| then Some(fields[i + 1].offset) else None;
      var p := TableField(c, w, at, end, table, v, fields[i], next);
      TableFieldsFrom(c, p.w, at, end, table, v, fields, i + 1, added + p.added)
  }

  lemma SortedInSchema(c: Context, at: nat, table: nat, v: VTable)
    requires IsVTableOf(c, at, table, v)
    ensures IsTable(c.schema, table) && FieldsInSchema(c, table, SortedEntries(v.fields))
  {
    hide SchemaOk, EntriesFor, StableSort, Listed;
    var fields, list := v.fields, Listed(v.fields, ID_LIMIT);
    StableSortSorts(list, ByDistance());
    assert forall e | e in list :: exists id: nat :: id in fields && fields[id] == e;
    forall e | e in SortedEntries(fields) && e.field.Some?
      ensures e.field.value < |FieldsOf(c, table)|
    {
      assert e in multiset(SortedEntries(fields)) && e in multiset(list) && e in list;
      var id: nat :| id in fields && fields[id] == e;
      assert EntryOk(c.schema, table, id, e);
    }
  }

  /** The end of the table, or of the binary if it is not inside. */
  function TableEnd(binary: seq<byte>, at: nat, v: VTable): nat {
    if IsValidOffset(binary, U64(at + v.tableSize - 1)) then at + v.tableSize else |binary|
  }

  /** What is left behind the last region of a table, up to its end, is padding. */
  function PadTable(end: nat, regions: seq<Region>): seq<Region>
    requires regions != []
  {
    var i := End(regions) + 1;
    if i < end then regions + [Region(i - 1, end - i + 1, Uint8, end - i + 1, 0)] else regions
  }

  /** The word at the front of a table, and where it leads; what remains of the binary if it is cut off. */
  function HeadRegion(binary: seq<byte>, at: nat): Region {
    if Read(binary, at, 4).None? then Rest(binary, at) else Region(at, 4, SOffset, 0, LeadOf(binary, at))
  }

  /** The vtable of a table; none if the word or the vtable is broken. */
  function FindVTable(c: Context, w: Walk, at: nat, typ: SectionType, table: nat): (f: Found)
    requires Tracked(c, w) && at < |c.binary| && IsTable(c.schema, table)
    ensures Tracked(c, f.w) && f.w.visits == w.visits
    ensures f.vtable.Some? ==> IsVTableOf(c, at, table, f.vtable.value)
  {
    hide Tracked, Doomed, Remembered, SchemaOk, IsValidRead;
    if Read(c.binary, at, 4).None? || !IsValidOffset(c.binary, LeadOf(c.binary, at)) then
      AddKeepsTracked(c, w, at, Section(typ, [HeadRegion(c.binary, at)]));
      Found(AddTo(w, at, Section(typ, [HeadRegion(c.binary, at)])), None)
    else GetOrBuildVTable(c, w, LeadOf(c.binary, at), table, at)
  }

  /** The section of a table: its head, its fields, and padding up to its end. */
  function FileTable(c: Context, w: Walk, at: nat, typ: SectionType, end: nat, fields: seq<Region>): (p: Progress)
    requires Tracked(c, w)
    ensures Continues(c, w, p.w) && p.w.visits == w.visits
  {
    hide Tracked, Doomed, HeadRegion;
    var regions := PadTable(end, [HeadRegion(c.binary, at)] + fields);
    FiledContinues(c, w, at, typ, regions);
    Filed(w, at, typ, regions)
  }

  /** A table whose vtable is found, with its fields. */
  function FillTable(c: Context, w: Walk, at: nat, typ: SectionType, table: nat, v: VTable): (p: Progress)
    requires at < |c.binary|
    requires Tracked(c, w) && IsVTableOf(c, at, table, v)
    ensures Continues(c, w, p.w)
    decreases |c.binary| - at, 5
  {
    hide Tracked, Doomed, IsVTableOf, SortedEntries;
    SortedInSchema(c, at, table, v);
    var end := TableEnd(c.binary, at, v);
    var p := TableFieldsFrom(c, w, at, end, table, v, SortedEntries(v.fields), 0, []);
    FileTable(c, p.w, at, typ, end, p.added)
  }

  /** Comes to a table, and finds its vtable. */
  function EnterTable(c: Context, w: Walk, at: nat, typ: SectionType, table: nat): (f: Found)
    requires Tracked(c, w) && at < |c.binary| && IsTable(c.schema, table)
    ensures Tracked(c, f.w) && f.w.visits == w.visits
    ensures f.vtable.Some? ==> IsVTableOf(c, at, table, f.vtable.value)
  {
    hide *;
    ArrivesContinues(c, w, TablePlace(at, typ, table));
    FindVTable(c, Arrive(w, TablePlace(at, typ, table)), at, typ, table)
  }

  /** Whatever is built next lies behind this table. */
  function BuildTable(c: Context, w: Walk, at: nat, typ: SectionType, table: nat): (p: Progress)
    requires Tracked(c, w) && at < |c.binary| && IsTable(c.schema, table)
    ensures Continues(c, w, p.w)
    decreases |c.binary| - at, 6
  {
    hide Tracked, Doomed, IsVTableOf, Contains;
    KnownIsRemembered(c, w, at);
    ArrivesContinues(c, w, TablePlace(at, typ, table));
    if Contains(w.sections, at) then Progress(Arrive(w, TablePlace(at, typ, table)), [])
    else
      var f := EnterTable(c, w, at, typ, table);
      if f.vtable.None? then Progress(f.w, []) else FillTable(c, f.w, at, typ, table, f.vtable.value)
  }

  /** A table that an earlier section contains is not built again. */
  lemma ContainedTable(c: Context, w: Walk, at: nat, typ: SectionType, table: nat)
    requires Tracked(c, w) && at < |c.binary| && IsTable(c.schema, table)
    requires NonEmpty(w.sections) && Contains(w.sections, at)
    ensures BuildTable(c, w, at, typ, table) == Progress(Arrive(w, TablePlace(at, typ, table)), [])
  {
    hide Tracked, Doomed, IsVTableOf, Contains, EnterTable, IsTable;
  }

  // ---- The whole walk -------------------------------------------------------------------------

  lemma NothingIsTracked(c: Context)
    requires Walkable(c)
    ensures Tracked(c, Walk(map[], map[], [], [])) && !Doomed(c, [])
  {
  }

  function WalkHeader(c: Context, isSizePrefixed: bool): (w: Walk)
    requires Walkable(c)
    ensures Tracked(c, w)
  {
    hide *;
    NothingIsTracked(c);
    WalkableIsLong(c);
    var header := Section(Header, HeaderRegions(c.binary, isSizePrefixed));
    HeaderNotEmpty(c.binary, isSizePrefixed);
    AddKeepsTracked(c, Walk(map[], map[], [], []), 0, header);
    AddTo(Walk(map[], map[], [], []), 0, header)
  }

  lemma DoomedMeans(c: Context, visits: seq<Visit>)
    ensures Doomed(c, visits) <==> exists v :: v in visits && Danger(c, v)
  {
    hide Danger;
  }

  lemma WalkableIsLong(c: Context)
    requires Walkable(c)
    ensures MIN_BUFFER_SIZE <= |c.binary|
  {
  }

  lemma HeaderNotEmpty(binary: seq<byte>, isSizePrefixed: bool)
    requires MIN_BUFFER_SIZE <= |binary|
    ensures HeaderRegions(binary, isSizePrefixed) != []
  {
  }

  /** The header, and all that is reached from the root table. */
  function WalkAll(c: Context, rootTable: nat, isSizePrefixed: bool): (p: Progress)
    requires Walkable(c) && IsTable(c.schema, rootTable)
    ensures Tracked(c, p.w)
  {
    hide Tracked, Doomed, SchemaOk;
    var w, root := WalkHeader(c, isSizePrefixed), RootLocation(c.binary, isSizePrefixed);
    if IsValidOffset(c.binary, root) then BuildTable(c, w, root, RootTable, rootTable) else Progress(w, [])
  }

  // ---- Entries without a field ------------------------------------------------------------------

  /** The vtable's entry has no field exactly when the words say so. */
  lemma NullMeans(c: Context, parent: nat, table: nat, v: VTable, id: nat)
    requires IsTable(c.schema, table) && id < |FieldsOf(c, table)|
    requires Walkable(c) && IsVTableOf(c, parent, table, v)
    ensures NullEntry(c, parent, table, id, v.builder) <==> id in v.fields && v.fields[id].field.None?
    ensures id in v.fields ==> v.fields[id].offset == Distance(c.binary, parent, id)
  {
    hide OutOfReach, SchemaOk, EntriesFor, KnownUpTo;
    EntryMeans(c, LeadOf(c.binary, parent), table, v.builder, id);
  }

  /** A type that is read for some element. */
  predicate TypeRead(binary: seq<byte>, types: nat, j: nat) {
    Read(binary, U64(types + j), 1).Some?
  }

  /** Without a field, the elements are read until the first that has a type. */
  lemma {:induction false} NullUnionsFail(binary: seq<byte>, types: nat, length: nat, i: nat, start: nat,
                                          added: seq<Region>)
    ensures NullUnions(binary, types, length, i, start, added).1 <==>
      && Target(binary, start).Some? && IsValidOffset(binary, Target(binary, start).value)
      && exists j: nat :: i <= j < length && TypeRead(binary, types, j)
    decreases length - i
  {
    hide Read, Target;
    if i < length && Target(binary, start).Some? {
      var cut := if !IsValidOffset(binary, Target(binary, start).value) then OffsetRegion(binary, start)
                 else Region(start, 0, UnknownBytes, 0, 0);
      assert TypeRead(binary, types, i) <==> Read(binary, U64(types + i), 1).Some?;
      NullUnionsFail(binary, types, length, i + 1, start, added + [cut]);
    }
  }

  /** Some type is inside the binary exactly if the first is, or the position wraps around. */
  lemma SomeTypeRead(binary: seq<byte>, types: nat, length: nat)
    requires MIN_BUFFER_SIZE <= |binary| < 0x4000_0000_0000_0000 && types < 0x8000_0000_0000_0000
    requires length <= 0x1_0000_0000_0000_0000
    ensures (exists j: nat :: j < length && TypeRead(binary, types, j)) <==>
      length > 0 && (types < |binary| || types + length > 0x1_0000_0000_0000_0000)
  {
    if length > 0 && types < |binary| {
      assert TypeRead(binary, types, 0);
    } else if types + length > 0x1_0000_0000_0000_0000 {
      assert TypeRead(binary, types, 0x1_0000_0000_0000_0000 - types);
    } else {
      forall j: nat | j < length
        ensures !TypeRead(binary, types, j)
      {
        assert U64(types + j) == types + j;
      }
    }
  }

  /** What reading the elements comes to, as a condition on the words. */
  lemma ReadsNullMeans(binary: seq<byte>, entry: Entry, field: nat, length: nat, start: nat)
    requires MIN_BUFFER_SIZE <= |binary| < 0x4000_0000_0000_0000 && field < 0x5000_0000_0000_0000
    requires length <= 0x1_0000_0000_0000_0000
    ensures ReadsNull(binary, entry, field, length, start) <==>
      && entry.field.None? && field + 2 <= |binary|
      && FirstElementRead(binary, start, length, field + Word(binary, field, 2) + 4)
  {
    hide NullUnions, Target, TypeRead, IsValidOffset, Get;
    WordIsRead(binary, field);
    var types := field + Word(binary, field, 2) + 4;
    Widths();
    NullUnionsFail(binary, types, length, 0, start, []);
    SomeTypeRead(binary, types, length);
  }

  lemma WordIsRead(binary: seq<byte>, at: nat)
    requires MIN_BUFFER_SIZE <= |binary| < 0x4000_0000_0000_0000 && at < 0x5000_0000_0000_0000
    ensures Read(binary, at, 2) == if at + 2 <= |binary| then Some(Word(binary, at, 2)) else None
  {
  }

  /** What the walk does at a vector of unions, as a condition on the words. */
  lemma DangerMeans(c: Context, vector: nat, length: nat, table: nat, id: nat, parent: nat, v: VTable)
    requires IsUnionVector(c, vector, length, table, id) && 0 < id && id - 1 in v.fields
    requires Walkable(c) && IsVTableOf(c, parent, table, v)
    ensures var entry, start := v.fields[id - 1], vector + LengthSize(FieldsOf(c, table)[id].typ);
      Danger(c, Visit(parent, table, id, vector, v.builder)) <==>
        ReadsNull(c.binary, entry, parent + entry.offset, length, start)
  {
    hide SchemaOk, EntriesFor, NullEntry, ReadsNull, FirstElementRead, SizesOf, MakeVTable, Distance, IsVTableOf, Word,
      LengthSize;
    var entry, start := v.fields[id - 1], vector + LengthSize(FieldsOf(c, table)[id].typ);
    Shares(c, parent, table, v);
    NullMeans(c, parent, table, v, id - 1);
    LengthIsSmall(c.binary, vector, FieldsOf(c, table)[id].typ);
    ReadsNullMeans(c.binary, entry, parent + entry.offset, length, start);
  }

  lemma Shares(c: Context, parent: nat, table: nat, v: VTable)
    requires IsVTableOf(c, parent, table, v)
    ensures ShareVTable(c.binary, parent, v.builder)
    ensures forall id: nat | id in v.fields :: v.fields[id].offset < 0x1_0000
  {
    hide SchemaOk, EntriesFor;
    assert forall id: nat | id in v.fields :: EntryOk(c.schema, table, id, v.fields[id]);
  }

  lemma LengthIsSmall(binary: seq<byte>, at: nat, t: Type)
    ensures Word(binary, at, LengthSize(t)) <= 0x1_0000_0000_0000_0000
  {
    Widths();
  }

  lemma VisitAdds(c: Context, w: Walk, visit: Visit)
    requires Tracked(c, w) && VisitOk(c, visit)
    ensures Continues(c, w, w.(visits := w.visits + [visit]))
    ensures Doomed(c, w.visits + [visit]) <==> Doomed(c, w.visits) || Danger(c, visit)
  {
    hide Danger, VisitOk, Remembered, Walkable;
    if Danger(c, visit) {
      assert visit in w.visits + [visit];
    }
    if Doomed(c, w.visits) {
      var v :| v in w.visits && Danger(c, v);
      assert v in w.visits + [visit];
    }
  }

  lemma FewFields(c: Context, w: Walk, table: nat)
    requires IsTable(c.schema, table) && Tracked(c, w)
    ensures |FieldsOf(c, table)| < 0x1_0000
  {
    hide SizesOf, MakeVTable, Remembered, VisitOk, Doomed;
    assert ObjectOk(c.schema, c.ranks, table);
  }

  lemma VisitContinues(c: Context, w: Walk, vector: nat, length: nat, table: nat, id: nat, parent: nat, v: VTable)
    requires IsUnionVector(c, vector, length, table, id)
    requires Tracked(c, w) && IsVTableOf(c, parent, table, v)
    ensures var w1 := w.(visits := w.visits + [Visit(parent, table, id, vector, v.builder)]);
      Continues(c, w, w1) && Tracked(c, w1)
  {
    hide Doomed, Danger, EntriesFor, Word, SchemaOk, SizesOf, NonEmpty, LengthSize, Tracked;
    Shares(c, parent, table, v);
    VisitAdds(c, w, Visit(parent, table, id, vector, v.builder));
  }

  /** At a vector of unions, the source reads a null field exactly if the visit is dangerous. */
  lemma VisitTells(c: Context, w: Walk, vector: nat, length: nat, table: nat, id: nat, parent: nat, v: VTable)
    requires IsUnionVector(c, vector, length, table, id)
    requires Tracked(c, w) && !Doomed(c, w.visits) && IsVTableOf(c, parent, table, v)
    requires TypeId(id) in v.fields
    ensures var visits, entry := w.visits + [Visit(parent, table, id, vector, v.builder)], v.fields[TypeId(id)];
      var start := vector + LengthSize(FieldsOf(c, table)[id].typ);
      Doomed(c, visits) <==> ReadsNull(c.binary, entry, parent + entry.offset, length, start)
  {
    hide Doomed, Danger, EntriesFor, Word, ReadsNull, SchemaOk, SizesOf, NonEmpty, LengthSize, Tracked, Continues;
    FewFields(c, w, table);
    TrackedIsWalkable(c, w);
    Shares(c, parent, table, v);
    VisitAdds(c, w, Visit(parent, table, id, vector, v.builder));
    if id == 0 {
      EntryMeans(c, LeadOf(c.binary, parent), table, v.builder, 0xffff);
      assert false;
    }
    DangerMeans(c, vector, length, table, id, parent, v);
  }
}
