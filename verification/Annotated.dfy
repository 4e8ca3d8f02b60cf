/**
 The annotator's data: a schema as reflection gives it, and the regions and sections that cover a
 binary. Names and comments are left out.
 */
module Annotated {
  import opened Codec
  import opened Wrappers

  datatype BaseType =
    | NoType | UType | Bool | Byte | UByte | Short | UShort | Int | UInt | Long | ULong | Float | Double
    | Str | Vec | Obj | Union | Arr | Vec64

  datatype Type = Type(base: BaseType, element: BaseType, index: int, fixedLength: nat)

  /** A field; its id is its position in the object. */
  datatype Field = Field(typ: Type, padding: nat, required: bool)

  datatype Object = Object(isStruct: bool, bytesize: nat, fields: seq<Field>)

  /** An enum of a union: the types of its values in order. */
  datatype Schema = Schema(objects: seq<Object>, enums: seq<seq<Type>>)

  predicate IsScalar(t: BaseType) {
    t != NoType && t != Str && t != Vec && t != Obj && t != Union && t != Arr && t != Vec64
  }

  function GetTypeSize(t: BaseType): (n: nat)
    ensures IsScalar(t) ==> n >= 1
  {
    match t
    case NoType => 0
    case UType => 1
    case Bool => 1
    case Byte => 1
    case UByte => 1
    case Short => 2
    case UShort => 2
    case Int => 4
    case UInt => 4
    case Long => 8
    case ULong => 8
    case Float => 4
    case Double => 8
    case Str => 4
    case Vec => 4
    case Obj => 4
    case Union => 4
    case Arr => 0
    case Vec64 => 8
  }

  datatype RegionType =
    | UnknownBytes | UOffset | SOffset | VOffset | Chars | Uint8 | Uint16 | Int16 | Uint32 | Uint64 | Int64
    | Float32 | Float64 | UnionType

  function GetRegionType(t: BaseType): RegionType {
    match t
    case UType => UnionType
    case Bool => Uint8
    case Byte => Uint8
    case UByte => Uint8
    case Short => Int16
    case UShort => Uint16
    case Int => Uint32
    case UInt => Uint32
    case Long => Int64
    case ULong => Uint64
    case Float => Float32
    case Double => Float64
    case _ => UnknownBytes
  }

  datatype Region = Region(offset: nat, length: nat, typ: RegionType, arrayLength: nat, pointsTo: nat)

  datatype SectionType = UnknownSection | Header | TableSection | RootTable | VTableSection | StringSection
    | VectorSection | UnionSection | Padding | Vector64Section

  datatype Section = Section(typ: SectionType, regions: seq<Region>)

  /** A vtable entry: the schema's field if it has one with this id, and the offset in the table. */
  datatype Entry = Entry(field: Option<nat>, offset: nat)

  /** A vtable for one type of table; the entries are those made for the first such table, at `builder`. */
  datatype VTable = VTable(table: nat, builder: nat, fields: map<nat, Entry>, tableSize: nat)

  // ---- Well-formed schemas -----------------------------------------------------------

  predicate IsObject(s: Schema, index: int) {
    0 <= index < |s.objects|
  }

  /** What a field of a table may refer to. */
  predicate TableFieldOk(s: Schema, fields: seq<Field>, id: nat)
    requires id < |fields|
  {
    var t := fields[id].typ;
    && (t.base == Obj || t.element == Obj ==> IsObject(s, t.index))
    && (t.element == Union && id > 0 ==> fields[id - 1].typ.index == t.index)
  }

  /** A struct field is a scalar, a struct, or a non-empty array of one of them; `rank` bounds the nesting. */
  predicate StructFieldOk(s: Schema, ranks: seq<nat>, rank: nat, f: Field)
    requires |ranks| == |s.objects|
  {
    if f.typ.base == Obj then IsStruct(s, f.typ.index) && ranks[f.typ.index] < rank
    else if f.typ.base == Arr then
      && f.typ.fixedLength > 0
      && (IsScalar(f.typ.element) || (IsStruct(s, f.typ.index) && ranks[f.typ.index] < rank))
    else IsScalar(f.typ.base)
  }

  predicate IsStruct(s: Schema, index: int) {
    IsObject(s, index) && s.objects[index].isStruct
  }

  predicate ObjectOk(s: Schema, ranks: seq<nat>, i: nat)
    requires |ranks| == |s.objects| && i < |s.objects|
  {
    var o := s.objects[i];
    && |o.fields| < 0x1_0000
    && if o.isStruct then o.fields != [] && forall f | f in o.fields :: StructFieldOk(s, ranks, ranks[i], f)
       else forall id | 0 <= id < |o.fields| :: TableFieldOk(s, o.fields, id)
  }

  /** Indices are in range, and structs are not circular and not empty. */
  predicate SchemaOk(s: Schema, ranks: seq<nat>) {
    && |ranks| == |s.objects|
    && (forall i | 0 <= i < |s.objects| :: ObjectOk(s, ranks, i))
    && (forall e, v | 0 <= e < |s.enums| && 0 <= v < |s.enums[e]| ::
          s.enums[e][v].base == Obj ==> IsObject(s, s.enums[e][v].index))
  }

  // ---- Regions in a binary -------------------------------------------------------------

  function U64(x: int): (r: nat)
    ensures r < 0x1_0000_0000_0000_0000
  {
    if 0 <= x < 0x1_0000_0000_0000_0000 then x else x % 0x1_0000_0000_0000_0000
  }

  /** Every byte that the region covers is below `n`. */
  predicate Within(r: Region, n: nat) {
    r.length == 0 || r.offset + r.length <= n
  }

  /** A region that may stand in a section that starts at `start`. */
  predicate Behind(r: Region, start: nat) {
    start <= r.offset && start < r.offset + r.length
  }

  /** The width of one value of a region's type. */
  function WidthOf(t: RegionType): nat {
    match t
    case UOffset => 4
    case SOffset => 4
    case VOffset => 2
    case Uint16 => 2
    case Int16 => 2
    case Uint32 => 4
    case Uint64 => 8
    case Int64 => 8
    case Float32 => 4
    case Float64 => 8
    case _ => 1
  }

  /**
   The region is what it is labelled as: one value as wide as its type, or a run of single bytes; and
   an offset points to where the bytes it covers lead, counted forward from an unsigned one and
   back from a signed one.
   */
  predicate Truthful(binary: seq<byte>, r: Region) {
    if r.arrayLength == r.length && (r.typ == UnknownBytes || r.typ == Uint8 || r.typ == Chars) then r.pointsTo == 0
    else
      && r.arrayLength == 0 && r.length == WidthOf(r.typ) && r.offset + r.length <= |binary|
      && (if r.typ == UOffset then r.pointsTo == r.offset + Get(binary, r.offset, 4)
          else if r.typ == SOffset then r.pointsTo == U64(r.offset - GetSigned(binary, r.offset, 4))
          else r.pointsTo == 0)
  }

  /** The region of a scalar is as wide as the scalar. */
  lemma ScalarWidth(t: BaseType)
    requires IsScalar(t)
    ensures 0 < GetTypeSize(t) == WidthOf(GetRegionType(t)) <= 8
    ensures GetRegionType(t) != UOffset && GetRegionType(t) != SOffset
  {
  }

  /** And of the scalar's own type: apart from bytes and Int, which are shown as unsigned, signed as it is signed. */
  lemma ScalarRegionType(t: BaseType)
    requires IsScalar(t)
    ensures var r := GetRegionType(t);
      && (r == Float32 || r == Float64 <==> t == Float || t == Double)
      && (r == Int16 || r == Int64 <==> t == Short || t == Long)
      && (r == UnionType <==> t == UType)
      && r != UnknownBytes && r != Chars && r != VOffset
  {
  }

  predicate RegionsOk(rs: seq<Region>, start: nat, binary: seq<byte>) {
    forall i | 0 <= i < |rs| :: Within(rs[i], |binary|) && Behind(rs[i], start) && Truthful(binary, rs[i])
  }

  function End(rs: seq<Region>): nat
    requires rs != []
  {
    rs[|rs| - 1].offset + rs[|rs| - 1].length
  }

  /** The regions stand without gap or overlap from `a` to `b`. */
  predicate Tiles(rs: seq<Region>, a: nat, b: nat) {
    if rs == [] then a == b
    else Tiles(rs[..|rs| - 1], a, rs[|rs| - 1].offset) && End(rs) == b
  }

  /** The sections whose regions stand without gap or overlap on any binary. */
  predicate Contiguous(typ: SectionType) {
    typ == Header || typ == StringSection || typ == UnionSection || typ == Padding || typ == UnknownSection
  }

  /** A section at `start`: within the binary, truthful, and beginning where it is filed. */
  predicate SectionOk(start: nat, s: Section, binary: seq<byte>) {
    && start < |binary| && s.regions != [] && s.regions[0].offset == start && RegionsOk(s.regions, start, binary)
    && (Contiguous(s.typ) ==> Tiles(s.regions, start, End(s.regions)))
  }

  lemma OneTiles(r: Region)
    ensures Tiles([r], r.offset, End([r]))
  {
    assert Tiles([r][..0], r.offset, r.offset);
  }

  lemma TilesAppend(rs: seq<Region>, a: nat, b: nat, r: Region)
    requires Tiles(rs, a, b) && r.offset == b
    ensures Tiles(rs + [r], a, b + r.length)
  {
    assert (rs + [r])[..|rs|] == rs;
  }

  lemma {:induction false} TilesConcat(rs: seq<Region>, qs: seq<Region>, a: nat, b: nat, c: nat)
    requires Tiles(rs, a, b) && Tiles(qs, b, c)
    ensures Tiles(rs + qs, a, c)
    decreases |qs|
  {
    if qs == [] {
      assert rs + qs == rs;
    } else {
      TilesConcat(rs, qs[..|qs| - 1], a, b, qs[|qs| - 1].offset);
      assert (rs + qs)[..|rs + qs| - 1] == rs + qs[..|qs| - 1];
    }
  }
}
