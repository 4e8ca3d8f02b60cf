/**
 The binary annotator: a walk over an arbitrary byte string under a schema. Each method is proved
 against the function of Walks with the same name; no region that the walk records covers a byte
 outside the binary, and the one way to fail is to read the null field of a vtable entry. `None`
 for a vtable stands for the null pointer.
 */
module Annotator {
  import opened Codec
  import opened Wrappers
  import opened Annotated
  import opened Sorting
  import opened Gaps
  import opened Walks
  import W = Walks

  const NO_OFFSET := 0xFFFF_FFFF_FFFF_FFFF

  /** How a step of the walk ends: it goes on, or has read the null field of a vtable entry. */
  datatype Step = Proceed | NullField {
    predicate IsFailure() {
      NullField?
    }

    function PropagateFailure(): Step
      requires NullField?
    {
      this
    }
  }

  /** The entries are the words behind the two sizes of the vtable at `at`. */
  predicate EntriesRead(binary: seq<byte>, at: nat, fields: map<nat, Entry>) {
    forall id | id in fields :: at + 6 + 2 * id <= |binary| && fields[id].offset == Get(binary, at + 4 + 2 * id, 2)
  }

  /** A vtable at `at` for a table of the schema: its words as they stand in the binary. */
  predicate VTableOk(s: Schema, binary: seq<byte>, at: nat, v: VTable) {
    && IsTable(s, v.table) && v.tableSize < 0x1_0000
    && at + 4 <= |binary| && v.tableSize == Get(binary, at + 2, 2) && EntriesRead(binary, at, v.fields)
    && forall id | id in v.fields :: id < 0x1_0000 && EntryOk(s, v.table, id, v.fields[id])
  }

  /** Truthful regions from `from` on, in the binary, none of them empty inside it. */
  predicate Solid(rs: seq<Region>, from: nat, binary: seq<byte>) {
    forall i | 0 <= i < |rs| ::
      && from <= rs[i].offset <= |binary| && rs[i].offset + rs[i].length <= |binary|
      && (rs[i].offset < |binary| ==> rs[i].length > 0) && Truthful(binary, rs[i])
  }

  lemma SolidIsOk(rs: seq<Region>, from: nat, start: nat, binary: seq<byte>)
    requires Solid(rs, from, binary) && start <= from && start < |binary|
    ensures RegionsOk(rs, start, binary)
  {
  }

  lemma {:induction false} TilesHead(rs: seq<Region>, a: nat, b: nat)
    requires Tiles(rs, a, b) && rs != []
    ensures rs[0].offset == a
  {
    if |rs| > 1 {
      TilesHead(rs[..|rs| - 1], a, rs[|rs| - 1].offset);
    }
  }

  lemma TilesToEnd(rs: seq<Region>, a: nat, b: nat)
    requires Tiles(rs, a, b) && rs != []
    ensures b == End(rs)
  {
  }

  /** The entries of a remembered vtable are the words that stand behind its two sizes. */
  lemma RememberedReads(c: Context, at: nat, v: VTable)
    requires SchemaOk(c.schema, c.ranks) && Remembered(c, at, v)
    ensures VTableOk(c.schema, c.binary, at, v)
  {
    hide SchemaOk, EntriesFor, Get, Read;
    forall id: nat | id in v.fields
      ensures at + 6 + 2 * id <= |c.binary| && v.fields[id].offset == Get(c.binary, at + 4 + 2 * id, 2)
      ensures id < 0x1_0000 && EntryOk(c.schema, v.table, id, v.fields[id])
    {
      EntryMeans(c, at, v.table, v.builder, id);
    }
  }

  class BinaryAnnotator {
    const schema: Schema
    const rootTable: nat
    const binary: seq<byte>
    const isSizePrefixed: bool
    ghost const ranks: seq<nat>
    var vtables: map<nat, seq<VTable>>
    var sections: Sections
    ghost var visits: seq<Visit>
    ghost var arrivals: seq<Arrival>

    /** A schema without circular or empty structs, and a binary that fits an address space. */
    ghost predicate WellFormed() {
      SchemaOk(schema, ranks) && IsTable(schema, rootTable) && |binary| < 0x4000_0000_0000_0000
    }

    ghost function Input(): Context {
      Context(schema, ranks, binary)
    }

    ghost function State(): Walk
      reads this
    {
      Walk(vtables, sections, visits, arrivals)
    }

    /** A vtable is remembered together with its section. */
    ghost predicate VTablesFiled()
      reads this
    {
      forall o | o in vtables :: vtables[o] != [] ==> o in sections
    }

    ghost predicate Sound()
      reads this
    {
      && WellFormed() && MIN_BUFFER_SIZE <= |binary| && SectionsOk(sections, binary) && VTablesFiled()
      && Tracked(Input(), State())
    }

    /** No null field has been read, nor is about to be. */
    ghost predicate Valid()
      reads this
    {
      Sound() && !Doomed(Input(), visits)
    }

    /** A step ends as the walk does, unless there is a null field to read in that part of the walk. */
    ghost predicate Ends(r: Step, p: Progress)
      reads this
    {
      (r.NullField? <==> Doomed(Input(), p.w.visits)) && (r.Proceed? ==> State() == p.w)
    }

    /** A step ends as the walk does, with the same regions. */
    ghost predicate Follows(r: Step, added: seq<Region>, p: Progress)
      reads this
    {
      Ends(r, p) && (r.Proceed? ==> added == p.added)
    }

    lemma ValidGoes()
      requires Valid()
      ensures Tracked(Input(), State()) && !Doomed(Input(), visits)
      ensures SchemaOk(schema, ranks) && Input() == Context(schema, ranks, binary)
      ensures MIN_BUFFER_SIZE <= |binary| < 0x4000_0000_0000_0000 && NonEmpty(sections) && State().sections == sections
    {
    }

    lemma FieldsAre(table: nat)
      requires IsTable(schema, table)
      ensures table < |schema.objects| && FieldsOf(Input(), table) == schema.objects[table].fields
    {
    }

    constructor (schema: Schema, ghost ranks: seq<nat>, rootTable: nat, binary: seq<byte>, isSizePrefixed: bool)
      ensures this.schema == schema && this.rootTable == rootTable && this.binary == binary
      ensures this.ranks == ranks && this.isSizePrefixed == isSizePrefixed
    {
      this.schema := schema;
      this.ranks := ranks;
      this.rootTable := rootTable;
      this.binary := binary;
      this.isSizePrefixed := isSizePrefixed;
      this.vtables := map[];
      this.sections := map[];
      this.visits := [];
      this.arrivals := [];
    }

    // ---- Reading ------------------------------------------------------------------------

    predicate IsValidOffset(offset: nat) {
      W.IsValidOffset(binary, offset)
    }

    predicate IsValidRead(offset: nat, length: nat) {
      W.IsValidRead(binary, offset, length)
    }

    function RemainingBytes(offset: nat): nat {
      W.RemainingBytes(binary, offset)
    }

    /** A valid read ends inside the binary. */
    lemma ReadIsInside(offset: nat, length: nat)
      requires offset <= NO_OFFSET && length > 0 && |binary| < 0x4000_0000_0000_0000
      requires length == 1 || offset < 0x8000_0000_0000_0000
      requires IsValidRead(offset, length)
      ensures offset + length <= |binary|
    {
    }

    /** The check of the source is enough where the walk reads: there the end does not wrap around. */
    function ReadScalar(offset: nat, size: nat): (r: Option<nat>)
      requires offset <= NO_OFFSET && 0 < size <= 8 && |binary| < 0x4000_0000_0000_0000
      requires size == 1 || offset < 0x8000_0000_0000_0000
      ensures r == Read(binary, offset, size)
      ensures MIN_BUFFER_SIZE <= |binary| ==> (r.Some? <==> offset + size <= |binary|)
    {
      if IsValidRead(offset, size) then
        ReadIsInside(offset, size);
        Some(Get(binary, offset, size))
      else None
    }

    predicate IsValidUnionValue(enumId: int, value: nat) {
      W.IsValidUnionValue(schema, enumId, value)
    }

    predicate ContainsSection(offset: nat)
      reads this
      requires Valid()
    {
      Contains(sections, offset)
    }

    /** Does not replace a section that is there. */
    method AddSection(offset: nat, section: Section)
      requires Valid() && SectionOk(offset, section, binary)
      modifies this`sections
      ensures Valid() && State() == AddTo(old(State()), offset, section)
      ensures Grows(old(sections), sections) && offset in sections
    {
      hide Tracked, Doomed, RegionsOk, SchemaOk;
      AddKeepsTracked(Input(), State(), offset, section);
      if offset !in sections {
        sections := sections[offset := section];
      }
      assert State() == AddTo(old(State()), offset, section);
    }

    /** Notes that the walk comes to a place. */
    ghost method ComeTo(place: Place)
      requires Valid()
      modifies this`arrivals
      ensures Valid() && State() == Arrive(old(State()), place)
    {
      hide Tracked, Doomed, SchemaOk, SectionsOk;
      ArrivesContinues(Input(), State(), place);
      arrivals := arrivals + [Arrival(place, sections)];
      assert State() == Arrive(old(State()), place);
    }

    // ---- The header -----------------------------------------------------------------------

    predicate TilesHeader(rs: seq<Region>)
      requires MIN_BUFFER_SIZE <= |binary|
    {
      var n := PrefixLength(binary, isSizePrefixed);
      Tiles(rs, 0, n + 4) || Tiles(rs, 0, n + 8)
    }

    /** Size prefix, root offset and file identifier stand from 0 on without a gap. */
    method BuildHeader() returns (rootLocation: nat)
      requires Valid()
      modifies this`sections
      ensures Valid() && Grows(old(sections), sections) && 0 in sections
      ensures State() == AddTo(old(State()), 0, Section(Header, W.HeaderRegions(binary, isSizePrefixed)))
      ensures rootLocation == RootLocation(binary, isSizePrefixed)
      ensures TilesHeader(W.HeaderRegions(binary, isSizePrefixed))
    {
      hide Tiles, RegionsOk, IsObject, ObjectOk, SchemaOk, Tracked, Doomed, W.HeaderRegions;
      Widths();
      var regions := HeaderRegions();
      AddSection(0, Section(Header, regions));
      var offset := PrefixLength(binary, isSizePrefixed);
      rootLocation := offset + ReadScalar(offset, 4).value;
    }

    method HeaderRegions() returns (regions: seq<Region>)
      requires MIN_BUFFER_SIZE <= |binary| < 0x4000_0000_0000_0000
      ensures regions == W.HeaderRegions(binary, isSizePrefixed)
      ensures SectionOk(0, Section(Header, regions), binary) && TilesHeader(regions)
    {
      hide Tiles, Solid, Truthful, Get, IsPrintable, SectionOk, RegionsOk, SectionsOk, SchemaOk;
      var offset;
      regions, offset := BuildPrefix();
      var root := Region(offset, 4, UOffset, 0, RootLocation(binary, isSizePrefixed));
      WordIsTruthful(offset);
      AppendSolid(regions, offset, root);
      regions := regions + [root];
      offset := offset + 4;
      if IsValidRead(offset, 4) && HasIdentifier(binary, offset) {
        var identifier := Region(offset, 4, Chars, 4, 0);
        CharsAreTruthful(offset);
        AppendSolid(regions, offset, identifier);
        regions := regions + [identifier];
        offset := offset + 4;
      }
      HeaderIsOk(regions, offset);
    }

    lemma HeaderIsOk(regions: seq<Region>, to: nat)
      requires regions != [] && 0 < |binary| && Tiles(regions, 0, to) && Solid(regions, 0, binary)
      ensures SectionOk(0, Section(Header, regions), binary)
    {
      hide Tiles, Solid, RegionsOk;
      TilesHead(regions, 0, to);
      TilesToEnd(regions, 0, to);
      SolidIsOk(regions, 0, 0, binary);
    }

    lemma AppendSolid(regions: seq<Region>, to: nat, r: Region)
      requires Tiles(regions, 0, to) && Solid(regions, 0, binary) && r.offset == to && r.length > 0
      requires to + r.length <= |binary| && Truthful(binary, r)
      ensures Tiles(regions + [r], 0, to + r.length) && Solid(regions + [r], 0, binary)
    {
      hide Truthful;
      TilesAppend(regions, 0, to, r);
    }

    lemma WordIsTruthful(offset: nat)
      requires MIN_BUFFER_SIZE <= |binary| && offset == PrefixLength(binary, isSizePrefixed)
      ensures Truthful(binary, Region(offset, 4, UOffset, 0, RootLocation(binary, isSizePrefixed)))
    {
    }

    lemma CharsAreTruthful(offset: nat)
      ensures Truthful(binary, Region(offset, 4, Chars, 4, 0))
    {
    }

    /** The size prefix: eight bytes if they are no larger than the binary, else four, else none. */
    method BuildPrefix() returns (regions: seq<Region>, offset: nat)
      requires MIN_BUFFER_SIZE <= |binary| < 0x4000_0000_0000_0000
      ensures offset == PrefixLength(binary, isSizePrefixed) && regions == PrefixRegions(offset)
      ensures Tiles(regions, 0, offset) && Solid(regions, 0, binary)
      ensures |regions| == (if offset == 0 then 0 else 1) && (regions != [] ==> regions[0].offset == 0)
    {
      offset := 0;
      regions := [];
      if isSizePrefixed {
        var hasPrefixValue := false;
        var prefix64 := ReadScalar(offset, 8);
        if prefix64.value <= |binary| {
          regions := [Region(0, 8, Uint64, 0, 0)];
          TilesAppend([], 0, 0, regions[0]);
          offset := 8;
          hasPrefixValue := true;
        }
        if !hasPrefixValue {
          var prefix32 := ReadScalar(offset, 4);
          if prefix32.value <= |binary| {
            regions := [Region(0, 4, Uint32, 0, 0)];
            TilesAppend([], 0, 0, regions[0]);
            offset := 4;
          }
        }
      }
    }

    // ---- Structs --------------------------------------------------------------------------------

    /** A scalar of `size` bytes in a struct, or what remains of the binary. */
    method BuildScalar(offset: nat, size: nat, typ: RegionType) returns (added: seq<Region>, next: nat, complete: bool)
      requires Valid() && offset <= |binary| && size > 0
      requires size == WidthOf(typ) && typ != UOffset && typ != SOffset
      ensures Piece(added, next) == ScalarPiece(binary, offset, size, typ) && complete == IsValidRead(offset, size)
      ensures Tiles(added, offset, next) && Solid(added, offset, binary) && next <= |binary|
      ensures offset < |binary| ==> next > offset
    {
      hide Tracked, Doomed;
      if !IsValidRead(offset, size) {
        var remaining := RemainingBytes(offset);
        added := [Region(offset, remaining, UnknownBytes, remaining, 0)];
        TilesAppend([], offset, offset, added[0]);
        return added, offset + remaining, false;
      }
      ReadIsInside(offset, size);
      added := [Region(offset, size, typ, 0, 0)];
      TilesAppend([], offset, offset, added[0]);
      return added, offset + size, true;
    }

    lemma JoinRegions(a: seq<Region>, b: seq<Region>, from: nat, mid: nat, to: nat)
      requires Tiles(a, from, mid) && Tiles(b, mid, to) && Solid(a, from, binary) && Solid(b, mid, binary)
        && from <= mid
      ensures Tiles(a + b, from, to) && Solid(a + b, from, binary)
    {
      TilesConcat(a, b, from, mid, to);
    }

    /** The regions of a struct stand without gap or overlap from `structOffset` to the offset that is returned. */
    method BuildStruct(structOffset: nat, index: nat) returns (added: seq<Region>, next: nat)
      requires Valid() && structOffset <= |binary| && IsObject(schema, index)
      ensures Piece(added, next) == W.BuildStruct(Input(), structOffset, index)
      ensures Tiles(added, structOffset, next) && Solid(added, structOffset, binary)
      ensures structOffset <= next <= |binary|
      ensures schema.objects[index].isStruct && structOffset < |binary| ==> next > structOffset && added != []
      decreases ranks[index], 1
    {
      hide Tracked, Doomed, Tiles, Solid, StructFieldOk;
      var def := schema.objects[index];
      added := [];
      next := structOffset;
      NothingTiles(structOffset);
      if !def.isStruct {
        return;
      }
      assert ObjectOk(schema, ranks, index);
      for id := 0 to |def.fields|
        invariant Piece(added, next) == StructUpTo(Input(), structOffset, index, id)
        invariant Tiles(added, structOffset, next) && Solid(added, structOffset, binary)
        invariant structOffset <= next <= |binary|
        invariant id > 0 && structOffset < |binary| ==> next > structOffset
      {
        var field := def.fields[id];
        assert field in def.fields;
        var more, end := BuildStructField(next, index, field);
        JoinRegions(added, more, structOffset, next, end);
        added := added + more;
        next := end;
        if field.padding > 0 && IsValidOffset(next + field.padding) {
          var padding := Region(next, field.padding, Uint8, field.padding, 0);
          PaddingFits(added, structOffset, next, padding);
          added := added + [padding];
          next := next + field.padding;
        }
      }
    }

    lemma NothingTiles(offset: nat)
      ensures Tiles([], offset, offset) && Solid([], offset, binary)
    {
    }

    lemma PaddingFits(added: seq<Region>, from: nat, next: nat, r: Region)
      requires Tiles(added, from, next) && Solid(added, from, binary) && from <= next && r.offset == next
      requires r == Region(next, r.length, Uint8, r.length, 0) && 0 < r.length && next + r.length <= |binary|
      ensures Tiles(added + [r], from, next + r.length) && Solid(added + [r], from, binary)
    {
      TilesAppend(added, from, next, r);
    }

    method BuildStructField(offset: nat, ghost index: nat, field: Field) returns (added: seq<Region>, next: nat)
      requires Valid() && offset <= |binary|
      requires IsObject(schema, index) && StructFieldOk(schema, ranks, ranks[index], field)
      ensures Piece(added, next) == StructField(Input(), offset, ranks[index], field)
      ensures Tiles(added, offset, next) && Solid(added, offset, binary) && offset <= next <= |binary|
      ensures offset < |binary| ==> next > offset
      decreases ranks[index], 0, 2
    {
      hide Tracked, Doomed, Tiles, Solid;
      var complete;
      if IsScalar(field.typ.base) {
        added, next, complete := BuildScalar(offset, GetTypeSize(field.typ.base), GetRegionType(field.typ.base));
      } else if field.typ.base == Obj {
        added, next := BuildStruct(offset, field.typ.index);
      } else {
        added, next := BuildArray(offset, index, field);
      }
    }

    /** One element of an array. */
    method BuildArrayElement(offset: nat, ghost index: nat, field: Field)
      returns (added: seq<Region>, next: nat, complete: bool)
      requires Valid() && offset <= |binary|
      requires IsObject(schema, index) && StructFieldOk(schema, ranks, ranks[index], field) && field.typ.base == Arr
      ensures (Piece(added, next), complete) == ArrayElement(Input(), offset, ranks[index], field)
      ensures Tiles(added, offset, next) && Solid(added, offset, binary) && offset <= next <= |binary|
      ensures offset < |binary| ==> next > offset
      decreases ranks[index], 0, 0
    {
      hide Tracked, Doomed, Tiles, Solid, SectionsOk, VTablesFiled, GetTypeSize, GetRegionType, WidthOf;
      complete := true;
      if IsScalar(field.typ.element) {
        ScalarWidth(field.typ.element);
        added, next, complete := BuildScalar(offset, GetTypeSize(field.typ.element), GetRegionType(field.typ.element));
      } else {
        added, next := BuildStruct(offset, field.typ.index);
      }
    }

    /** An array is the repeated element; a scalar that does not fit ends it. */
    method BuildArray(offset: nat, ghost index: nat, field: Field) returns (added: seq<Region>, next: nat)
      requires Valid() && offset <= |binary|
      requires IsObject(schema, index) && StructFieldOk(schema, ranks, ranks[index], field) && field.typ.base == Arr
      ensures Piece(added, next) == ArrayUpTo(Input(), offset, ranks[index], field, field.typ.fixedLength).0
      ensures Tiles(added, offset, next) && Solid(added, offset, binary) && offset <= next <= |binary|
      ensures offset < |binary| ==> next > offset
      decreases ranks[index], 0, 1
    {
      hide Tracked, Doomed, Tiles, Solid, ObjectOk, SectionsOk, VTablesFiled, ArrayElement, W.BuildStruct;
      added := [];
      next := offset;
      NothingTiles(offset);
      var i := 0;
      var complete := true;
      while i < field.typ.fixedLength && complete
        invariant i <= field.typ.fixedLength
        invariant (Piece(added, next), complete) == ArrayUpTo(Input(), offset, ranks[index], field, i)
        invariant Tiles(added, offset, next) && Solid(added, offset, binary) && offset <= next <= |binary|
        invariant i > 0 && offset < |binary| ==> next > offset
        invariant !complete ==> i > 0
        decreases field.typ.fixedLength - i
      {
        var more, end;
        more, end, complete := BuildArrayElement(next, index, field);
        JoinRegions(added, more, offset, next, end);
        added := added + more;
        next := end;
        i := i + 1;
      }
      ArrayStops(offset, index, field, i, field.typ.fixedLength);
    }

    /** An array that was cut short gets no more elements. */
    lemma {:induction false} ArrayStops(offset: nat, index: nat, field: Field, i: nat, k: nat)
      requires SchemaOk(schema, ranks) && IsObject(schema, index) && StructFieldOk(schema, ranks, ranks[index], field)
      requires field.typ.base == Arr && i <= k
      requires i == k || !ArrayUpTo(Input(), offset, ranks[index], field, i).1
      ensures ArrayUpTo(Input(), offset, ranks[index], field, k) == ArrayUpTo(Input(), offset, ranks[index], field, i)
      decreases k - i
    {
      hide SchemaOk;
      if i < k {
        ArrayStops(offset, index, field, i, k - 1);
      }
    }

    // ---- VTables --------------------------------------------------------------------------------

    /** A section of one region that begins where the section is filed. */
    method AddSingleRegion(offset: nat, typ: SectionType, region: Region)
      requires Valid() && region.offset == offset < |binary| && 0 < region.length && offset + region.length <= |binary|
      requires Truthful(binary, region)
      modifies this`sections
      ensures Valid() && State() == AddTo(old(State()), offset, Section(typ, [region]))
      ensures Grows(old(sections), sections) && offset in sections
    {
      hide Tracked, Doomed;
      OneTiles(region);
      AddSection(offset, Section(typ, [region]));
    }

    /** The word of an entry, or what is left of it. */
    lemma EntryRegionFits(regions: seq<Region>, start: nat, offset: nat)
      requires RegionsOk(regions, start, binary) && start < |binary| && start < offset
      requires MIN_BUFFER_SIZE <= |binary| < 0x4000_0000_0000_0000 && offset < 0x5000_0000_0000_0000
      ensures Read(binary, offset, 2).None? ==> RegionsOk(regions + [Rest(binary, offset)], start, binary)
      ensures Read(binary, offset, 2).Some? ==> RegionsOk(regions + [Region(offset, 2, VOffset, 0, 0)], start, binary)
    {
    }

    /** The entries of the fields that the schema has. */
    method BuildKnownEntries(vtableOffset: nat, vtableSize: nat, table: nat, refOffset: nat)
      returns (regions: seq<Region>, fields: map<nat, Entry>, processed: nat)
      requires Valid() && vtableOffset < |binary| && refOffset < |binary| && IsTable(schema, table)
      requires vtableSize < 0x1_0000
      ensures Known(regions, fields, processed)
        == KnownUpTo(Input(), vtableOffset, vtableSize, table, refOffset, |schema.objects[table].fields|)
      ensures RegionsOk(regions, vtableOffset, binary) && processed < 0x1_0000
    {
      hide Tracked, Doomed, SectionsOk, VTablesFiled, Get, RegionsOk, Truthful;
      Widths();
      NothingIsOk(vtableOffset);
      regions, fields, processed := [], map[], 0;
      assert ObjectOk(schema, ranks, table);
      for id := 0 to |schema.objects[table].fields|
        invariant Known(regions, fields, processed)
          == KnownUpTo(Input(), vtableOffset, vtableSize, table, refOffset, id)
        invariant RegionsOk(regions, vtableOffset, binary)
      {
        var fieldOffset := vtableOffset + 4 + id * 2;
        if fieldOffset < vtableOffset + vtableSize {
          var offsetFromTable := ReadScalar(fieldOffset, 2);
          EntryRegionFits(regions, vtableOffset, fieldOffset);
          if offsetFromTable.None? {
            var remaining := RemainingBytes(fieldOffset);
            regions := regions + [Region(fieldOffset, remaining, UnknownBytes, remaining, 0)];
          } else if !IsValidOffset(U64(refOffset + offsetFromTable.value - 1)) {
            regions := regions + [Region(fieldOffset, 2, VOffset, 0, 0)];
          } else {
            fields := if id in fields then fields else fields[id := Entry(Some(id), offsetFromTable.value)];
            regions := regions + [Region(fieldOffset, 2, VOffset, 0, 0)];
            if !(offsetFromTable.value == 0 && schema.objects[table].fields[id].required) {
              processed := processed + 1;
            }
          }
        }
      }
    }

    /**
     Entries from the number of processed fields on, at most three times as many: those beyond the
     schema's, and those of the schema's own fields that were passed over. They get no field.
     */
    method BuildUnknownEntries(vtableOffset: nat, vtableSize: nat, ghost read: seq<Region>, known: map<nat, Entry>,
                               processed: nat)
      returns (regions: seq<Region>, fields: map<nat, Entry>)
      requires Valid() && vtableOffset < |binary| && 4 <= vtableSize < 0x1_0000 && processed < 0x1_0000
      ensures var k := Known(read, known, processed);
        Known(regions, fields, processed) == UnknownUpTo(Input(), vtableOffset, k, Expected(vtableSize, processed))
      ensures RegionsOk(regions, vtableOffset, binary)
      ensures forall id | id in known :: id in fields && fields[id] == known[id]
    {
      hide Tracked, Doomed, SectionsOk, VTablesFiled, Get, SchemaOk, RegionsOk, Truthful;
      Widths();
      NothingIsOk(vtableOffset);
      regions, fields := [], known;
      var expectant := (vtableSize - 4) / 2;
      var tripled := (processed * 3) % 0x1_0000;
      if tripled < expectant {
        expectant := tripled;
      }
      ghost var k := Known(read, known, processed);
      var id := processed;
      while id < expectant
        invariant Known(regions, fields, processed) == UnknownUpTo(Input(), vtableOffset, k, id)
        invariant id <= processed || id <= expectant
        invariant RegionsOk(regions, vtableOffset, binary)
        invariant forall id | id in known :: id in fields && fields[id] == known[id]
      {
        var fieldOffset := vtableOffset + 4 + id * 2;
        var offsetFromTable := ReadScalar(fieldOffset, 2);
        EntryRegionFits(regions, vtableOffset, fieldOffset);
        if offsetFromTable.None? {
          var remaining := RemainingBytes(fieldOffset);
          regions := regions + [Region(fieldOffset, remaining, UnknownBytes, remaining, 0)];
        } else {
          fields := if id in fields then fields else fields[id := Entry(None, offsetFromTable.value)];
          regions := regions + [Region(fieldOffset, 2, VOffset, 0, 0)];
        }
        id := id + 1;
      }
    }

    /** The size and the table size at the front of a vtable; none if the vtable is broken. */
    method BuildVTableHead(vtableOffset: nat) returns (head: Option<(nat, nat)>)
      requires Valid() && vtableOffset < |binary|
      modifies this`sections
      ensures Valid() && Grows(old(sections), sections) && head == SizesOf(binary, vtableOffset)
      ensures State() == if head.Some? then old(State())
        else AddTo(old(State()), vtableOffset, Section(VTableSection, [BrokenVTable(binary, vtableOffset)]))
    {
      hide Tracked, Doomed, SchemaOk, SectionsOk, VTablesFiled;
      Widths();
      var vtableLength := ReadScalar(vtableOffset, 2);
      if vtableLength.None? {
        var remaining := RemainingBytes(vtableOffset);
        AddSingleRegion(vtableOffset, VTableSection, Region(vtableOffset, remaining, UnknownBytes, remaining, 0));
        return None;
      }
      var vtableSize := vtableLength.value;
      if !IsValidOffset(U64(vtableOffset + vtableSize - 1)) {
        AddSingleRegion(vtableOffset, VTableSection, Region(vtableOffset, 2, Uint16, 0, 0));
        return None;
      } else if vtableSize < 4 {
        AddSingleRegion(vtableOffset, VTableSection, Region(vtableOffset, 2, Uint16, 0, 0));
        return None;
      }
      var tableLength := ReadScalar(vtableOffset + 2, 2);
      assert tableLength.Some?;  // the binary reaches to the end of the vtable
      return Some((vtableSize, tableLength.value));
    }

    /** Files the vtable's section the first time, and remembers the vtable. */
    method RecordVTable(vtableOffset: nat, known: seq<VTable>, vtable: VTable, regions: seq<Region>)
      requires Valid() && vtableOffset < |binary| && known == KnownAt(State(), vtableOffset)
      requires Remembered(Input(), vtableOffset, vtable)
      requires SectionOk(vtableOffset, Section(VTableSection, regions), binary)
      requires known == [] ==> vtableOffset !in sections
      modifies this`sections, this`vtables
      ensures Valid() && Grows(old(sections), sections)
      ensures vtables == old(vtables)[vtableOffset := known + [vtable]]
      ensures sections == if known == []
        then old(sections)[vtableOffset := Section(VTableSection, regions)] else old(sections)
    {
      hide Tracked, Doomed, Remembered, SchemaOk, RegionsOk;
      KnownIsRemembered(Input(), State(), vtableOffset);
      ghost var filed := if known == [] then sections[vtableOffset := Section(VTableSection, regions)] else sections;
      FiledKeepsTracked(Input(), State(), vtableOffset, known + [vtable], filed);
      if known == [] {
        sections := sections[vtableOffset := Section(VTableSection, regions)];
      }
      vtables := vtables[vtableOffset := known + [vtable]];
      assert State() == old(State()).(vtables := old(vtables)[vtableOffset := known + [vtable]], sections := filed);
    }

    /** The vtable for the type of table, if it has been made before. */
    static method FindKnown(known: seq<VTable>, table: nat) returns (r: Option<VTable>)
      ensures r == Lookup(known, table)
    {
      for i := 0 to |known|
        invariant Lookup(known[i..], table) == Lookup(known, table)
      {
        if known[i].table == table {
          return Some(known[i]);
        }
        assert known[i..][1..] == known[i + 1..];
      }
      assert known[|known|..] == [];
      r := None;
    }

    /** One vtable for each pair of offset and table type. */
    method GetOrBuildVTable(vtableOffset: nat, table: nat, refOffset: nat) returns (r: Option<VTable>)
      requires Valid() && vtableOffset < |binary| && IsTable(schema, table)
      requires refOffset + 4 <= |binary| && vtableOffset == LeadOf(binary, refOffset)
      modifies this
      ensures Valid() && Grows(old(sections), sections)
      ensures Found(State(), r) == W.GetOrBuildVTable(Input(), old(State()), vtableOffset, table, refOffset)
      ensures r.Some? ==> VTableOk(schema, binary, vtableOffset, r.value) && r.value.table == table
      ensures r.Some? ==> vtableOffset in vtables && r.value in vtables[vtableOffset] && vtableOffset in sections
      ensures r.Some? && vtableOffset in old(vtables) && r.value in old(vtables[vtableOffset])
        ==> sections == old(sections)
    {
      hide Tracked, Doomed, Remembered, SchemaOk, SectionsOk, Contains, VTableOk, LeadOf, W.BuildVTable;
      ghost var w := State();
      KnownIsRemembered(Input(), w, vtableOffset);
      FiledKeepsTracked(Input(), w, vtableOffset, KnownAt(w, vtableOffset), sections);
      var known := if vtableOffset in vtables then vtables[vtableOffset] else [];
      vtables := vtables[vtableOffset := known];
      assert State() == w.(vtables := w.vtables[vtableOffset := KnownAt(w, vtableOffset)], sections := w.sections);
      r := FindKnown(known, table);
      if r.None? {
        r := BuildVTable(vtableOffset, known, table, refOffset);
      }
      if r.Some? {
        RememberedReads(Input(), vtableOffset, r.value);
      }
    }

    /** Makes the vtable for the table at `refOffset`, and files it if it is the first at its place. */
    method BuildVTable(vtableOffset: nat, known: seq<VTable>, table: nat, refOffset: nat) returns (r: Option<VTable>)
      requires Valid() && vtableOffset < |binary| && IsTable(schema, table)
      requires refOffset + 4 <= |binary| && vtableOffset == LeadOf(binary, refOffset)
      requires vtableOffset in vtables && vtables[vtableOffset] == known && Lookup(known, table) == None
      modifies this
      ensures Valid() && Grows(old(sections), sections)
      ensures Found(State(), r) == W.BuildVTable(Input(), old(State()), vtableOffset, table, refOffset)
      ensures r.Some? ==> vtableOffset in vtables && r.value in vtables[vtableOffset] && r.value !in known
    {
      hide Tracked, Doomed, Remembered, SchemaOk, SectionsOk, Contains, SizesOf, LeadOf, EntriesFor, MakeVTable,
        RegionsOk;
      KnownIsRemembered(Input(), State(), vtableOffset);
      if known == [] && ContainsSection(vtableOffset) {
        return None;
      }
      if known == [] {
        UncontainedIsNew(sections, vtableOffset);
      }
      var head := BuildVTableHead(vtableOffset);
      if head.None? {
        return None;
      }
      MadeIsRemembered(Input(), vtableOffset, table, refOffset);
      var regions, vtable := BuildEntries(vtableOffset, head.value.0, head.value.1, table, refOffset);
      RecordVTable(vtableOffset, known, vtable, regions);
      return Some(vtable);
    }

    lemma UncontainedIsNew(m: Sections, offset: nat)
      requires NonEmpty(m) && !Contains(m, offset)
      ensures offset !in m
    {
    }

    /** The regions and the entries of a vtable whose two sizes are given. */
    method BuildEntries(vtableOffset: nat, vtableSize: nat, tableSize: nat, table: nat, refOffset: nat)
      returns (regions: seq<Region>, vtable: VTable)
      requires Valid() && vtableOffset < |binary| && refOffset < |binary| && IsTable(schema, table)
      requires SizesOf(binary, vtableOffset) == Some((vtableSize, tableSize))
      ensures SectionOk(vtableOffset, Section(VTableSection, regions), binary)
      ensures regions == EntriesFor(Input(), vtableOffset, table, refOffset).regions
      ensures vtable == MakeVTable(Input(), vtableOffset, table, refOffset)
    {
      hide Tracked, Doomed, SchemaOk, SectionsOk, VTablesFiled, Get, KnownUpTo, UnknownUpTo, SizesOf;
      regions := [Region(vtableOffset, 2, Uint16, 0, 0), Region(vtableOffset + 2, 2, Uint16, 0, 0)];
      var more, fields, processed := BuildKnownEntries(vtableOffset, vtableSize, table, refOffset);
      var others, all := BuildUnknownEntries(vtableOffset, vtableSize, more, fields, processed);
      vtable := VTable(table, refOffset, all, tableSize);
      regions := regions + more + others;
    }

    // ---- Strings -------------------------------------------------------------------------------

    /** A string's section stands without gap or overlap: length, characters, terminator. */
    method BuildString(stringOffset: nat)
      requires Valid() && stringOffset < |binary|
      modifies this`sections, this`arrivals
      ensures Valid() && Grows(old(sections), sections)
      ensures State() == W.BuildString(Input(), old(State()), stringOffset)
      ensures ContainsSection(stringOffset)
      ensures !old(ContainsSection(stringOffset))
        ==> stringOffset in sections && sections[stringOffset].typ == StringSection
      ensures !old(ContainsSection(stringOffset)) ==>
        Tiles(sections[stringOffset].regions, stringOffset, End(sections[stringOffset].regions))
    {
      hide Tiles, RegionsOk, IsObject, ObjectOk, SchemaOk, Tracked, Doomed, W.StringRegions, Truthful;
      KnownIsRemembered(Input(), State(), stringOffset);
      ComeTo(StringPlace(stringOffset));
      if ContainsSection(stringOffset) {
        return;
      }
      var regions := StringRegions(stringOffset);
      AddSection(stringOffset, Section(StringSection, regions));
    }

    method StringRegions(stringOffset: nat) returns (regions: seq<Region>)
      requires MIN_BUFFER_SIZE <= |binary| < 0x4000_0000_0000_0000 && stringOffset < |binary|
      ensures SectionOk(stringOffset, Section(StringSection, regions), binary)
      ensures regions == W.StringRegions(binary, stringOffset)
      ensures Tiles(regions, stringOffset, End(regions))
    {
      hide Tiles, RegionsOk;
      Widths();
      var stringLength := ReadScalar(stringOffset, 4);
      if stringLength.None? {
        var remaining := RemainingBytes(stringOffset);
        regions := [Region(stringOffset, remaining, UnknownBytes, remaining, 0)];
        HeadTiles(stringOffset, regions[0]);
        return;
      }
      var size := stringLength.value;
      regions := [Region(stringOffset, 4, Uint32, 0, 0)];
      HeadTiles(stringOffset, regions[0]);
      if IsValidOffset(stringOffset + 4 + size + 1 - 1) {
        var chars := Region(stringOffset + 4, size, Chars, size, 0);
        OneMore(regions, stringOffset, stringOffset, stringOffset + 4, chars);
        regions := regions + [chars];
        var terminator := Region(stringOffset + 4 + size, 1, Chars, 0, 0);
        OneMore(regions, stringOffset, stringOffset, stringOffset + 4 + size, terminator);
        regions := regions + [terminator];
      }
    }

    lemma HeadTiles(offset: nat, r: Region)
      requires r.offset == offset && r.length > 0 && offset + r.length <= |binary| && Truthful(binary, r)
      ensures ElementsTile([r], offset, offset, offset + r.length)
    {
      hide Truthful;
      EmptyTiles(offset);
      TilesAppend([], offset, offset, r);
      assert [] + [r] == [r];
    }

    lemma EmptyTiles(a: nat)
      ensures Tiles([], a, a)
    {
    }

    // ---- Vectors --------------------------------------------------------------------------------

    /** Regions of a vector's elements: behind its length, within the binary, without gap or overlap. */
    ghost predicate ElementsTile(added: seq<Region>, vectorOffset: nat, start: nat, end: nat) {
      RegionsOk(added, vectorOffset, binary) && Tiles(added, start, end)
    }

    lemma OneMore(added: seq<Region>, vectorOffset: nat, start: nat, offset: nat, r: Region)
      requires ElementsTile(added, vectorOffset, start, offset) && r.offset == offset > vectorOffset
      requires Within(r, |binary|) && Truthful(binary, r)
      ensures ElementsTile(added + [r], vectorOffset, start, offset + r.length)
    {
      TilesAppend(added, start, offset, r);
    }

    lemma NoneYet(vectorOffset: nat, start: nat)
      ensures ElementsTile([], vectorOffset, start, start)
    {
    }

    /** Structs are inline; a struct without bytes ends the vector. */
    method VectorOfStructs(vectorOffset: nat, start: nat, length: nat, index: nat)
      returns (added: seq<Region>, offset: nat)
      requires Valid() && vectorOffset < start <= |binary| && IsObject(schema, index)
      ensures added == StructsFrom(Input(), index, length, 0, Piece([], start)).added
      ensures ElementsTile(added, vectorOffset, start, offset)
    {
      hide SchemaOk, SectionsOk, Tiles, Tracked, Doomed, VTablesFiled, W.BuildStruct;
      NoneYet(vectorOffset, start);
      added, offset := [], start;
      var i := 0;
      while i < length
        invariant ElementsTile(added, vectorOffset, start, offset) && start <= offset <= |binary|
        invariant StructsFrom(Input(), index, length, i, Piece(added, offset))
          == StructsFrom(Input(), index, length, 0, Piece([], start))
        decreases length - i
      {
        var more, next := BuildStruct(offset, index);
        SolidIsOk(more, offset, vectorOffset, binary);
        TilesConcat(added, more, start, offset, next);
        added := added + more;
        if next == offset {
          return;
        }
        offset := next;
        i := i + 1;
      }
    }

    method VectorOfScalars(vectorOffset: nat, start: nat, length: nat, t: Type)
      returns (added: seq<Region>, offset: nat)
      requires Valid() && vectorOffset < start <= |binary| && IsScalar(t.element)
      ensures added == ScalarsFrom(binary, t.element, length, 0, Piece([], start)).added
      ensures ElementsTile(added, vectorOffset, start, offset)
    {
      hide SchemaOk, SectionsOk, Tiles, Tracked, Doomed, VTablesFiled, ElementsTile, Solid, NonEmpty, Remembered,
        ScalarsFrom, RegionsOk;
      NoneYet(vectorOffset, start);
      added, offset := [], start;
      var size := GetTypeSize(t.element);
      var i := 0;
      while i < length
        invariant ElementsTile(added, vectorOffset, start, offset) && start <= offset <= |binary|
        invariant ScalarsFrom(binary, t.element, length, i, Piece(added, offset))
          == ScalarsFrom(binary, t.element, length, 0, Piece([], start))
        decreases length - i
      {
        NextScalar(binary, t.element, length, i, Piece(added, offset));
        if !IsValidRead(offset, size) {
          var remaining := RemainingBytes(offset);
          OneMore(added, vectorOffset, start, offset, Region(offset, remaining, UnknownBytes, remaining, 0));
          added := added + [Region(offset, remaining, UnknownBytes, remaining, 0)];
          offset := offset + remaining;
          return;
        }
        ReadIsInside(offset, size);
        OneMore(added, vectorOffset, start, offset, Region(offset, size, GetRegionType(t.element), 0, 0));
        added := added + [Region(offset, size, GetRegionType(t.element), 0, 0)];
        offset := offset + size;
        i := i + 1;
      }
      NextScalar(binary, t.element, length, i, Piece(added, offset));
    }

    /** An offset word in a vector, or what remains of the binary, and where the word leads. */
    method ReadOffset(offset: nat) returns (region: Region, target: Option<nat>)
      requires offset <= |binary| < 0x4000_0000_0000_0000
      ensures region == OffsetRegion(binary, offset) && target == Target(binary, offset)
      ensures region.offset == offset && Within(region, |binary|) && Truthful(binary, region)
      ensures offset + region.length <= |binary| && (target.Some? ==> region.length == 4)
    {
      var relative := ReadScalar(offset, 4);
      if relative.None? {
        var remaining := RemainingBytes(offset);
        return Region(offset, remaining, UnknownBytes, remaining, 0), None;
      }
      return Region(offset, 4, UOffset, 0, offset + relative.value), Some(offset + relative.value);
    }

    method VectorOfStrings(vectorOffset: nat, start: nat, length: nat) returns (added: seq<Region>, offset: nat)
      requires Valid() && vectorOffset < start <= |binary|
      modifies this`sections, this`arrivals
      ensures Valid() && Grows(old(sections), sections)
      ensures Follows(Proceed, added, StringsFrom(Input(), old(State()), length, 0, start, []))
      ensures ElementsTile(added, vectorOffset, start, offset)
    {
      hide SchemaOk, SectionsOk, Tiles, RegionsOk, Tracked, Doomed, Truthful, Read, W.BuildString, StringsFrom,
        OffsetRegion, Target, VTablesFiled, NonEmpty, Remembered, Contains, Solid;
      NoneYet(vectorOffset, start);
      added, offset := [], start;
      ghost var w := State();
      var i := 0;
      while i < length
        invariant Valid() && Grows(old(sections), sections)
        invariant StringsFrom(Input(), State(), length, i, offset, added)
          == StringsFrom(Input(), w, length, 0, start, [])
        invariant ElementsTile(added, vectorOffset, start, offset) && start <= offset <= |binary|
        decreases length - i
      {
        NextString(Input(), State(), length, i, offset, added);
        var region, target := ReadOffset(offset);
        OneMore(added, vectorOffset, start, offset, region);
        added := added + [region];
        offset := offset + region.length;
        if target.None? {
          return;
        }
        if IsValidOffset(target.value) {
          BuildString(target.value);
        }
        i := i + 1;
      }
      NextString(Input(), State(), length, i, offset, added);
    }

    /** The offsets lead past the vector, so never back to the table that holds it. */
    method VectorOfTables(vectorOffset: nat, start: nat, length: nat, table: nat, parent: nat)
      returns (r: Step, added: seq<Region>, offset: nat)
      requires Valid() && parent < vectorOffset < start <= |binary| && IsTable(schema, table)
      modifies this
      ensures Follows(r, added, TablesFrom(Input(), old(State()), vectorOffset, table, length, 0, start, []))
      ensures r.Proceed? ==> Valid() && Grows(old(sections), sections)
      ensures r.Proceed? ==> ElementsTile(added, vectorOffset, start, offset)
      decreases |binary| - vectorOffset, 0
    {
      hide SchemaOk, SectionsOk, Tiles, RegionsOk, Tracked, Doomed, Truthful, Read, IsTable, W.BuildTable,
        VTablesFiled, NonEmpty, Remembered, Contains, Solid, TablesFrom, OffsetRegion, Target;
      NoneYet(vectorOffset, start);
      added, offset := [], start;
      ghost var w := State();
      var i := 0;
      while i < length
        invariant Valid() && Grows(old(sections), sections)
        invariant ElementsTile(added, vectorOffset, start, offset) && start <= offset <= |binary|
        invariant TablesFrom(Input(), State(), vectorOffset, table, length, i, offset, added)
          == TablesFrom(Input(), w, vectorOffset, table, length, 0, start, [])
        decreases length - i
      {
        NextTable(Input(), State(), vectorOffset, table, length, i, offset, added);
        var region, target := ReadOffset(offset);
        OneMore(added, vectorOffset, start, offset, region);
        added := added + [region];
        offset := offset + region.length;
        if target.None? {
          return Proceed, added, offset;
        }
        if IsValidOffset(target.value) {
          if target.value == parent {
            assert false;
          } else {
            :- BuildTable(target.value, TableSection, table);
          }
        }
        i := i + 1;
      }
      NextTable(Input(), State(), vectorOffset, table, length, i, offset, added);
      r := Proceed;
    }

    /** The entry before the field's own leads to the types of the elements. */
    method VectorOfUnions(vectorOffset: nat, start: nat, length: nat, table: nat, id: nat, parent: nat, v: VTable)
      returns (r: Step, added: seq<Region>)
      requires IsTable(schema, table) && parent < vectorOffset < start <= |binary|
      requires id < |schema.objects[table].fields| && schema.objects[table].fields[id].typ.element == Union
      requires start == vectorOffset + LengthSize(schema.objects[table].fields[id].typ)
      requires length == Word(binary, vectorOffset, LengthSize(schema.objects[table].fields[id].typ))
      requires Valid() && IsVTableOf(Input(), parent, table, v)
      modifies this
      ensures Follows(r, added, UnionVector(Input(), old(State()), vectorOffset, length, table, id, parent, v))
      ensures r.Proceed? ==> Valid() && Grows(old(sections), sections) && RegionsOk(added, vectorOffset, binary)
      decreases |binary| - vectorOffset, 2
    {
      hide SchemaOk, SectionsOk, Tiles, Tracked, Doomed, Truthful, Remembered, W.TypedUnions, LengthSize, Word,
        ReadsNull;
      added := [];
      var typeId := (id - 1) % 0x1_0000;
      if typeId !in v.fields {
        return Proceed, [];
      }
      FieldIsOk(Input(), table, id);
      EntriesOfVTable(Input(), parent, table, v);
      VisitContinues(Input(), State(), vectorOffset, length, table, id, parent, v);
      VisitTells(Input(), State(), vectorOffset, length, table, id, parent, v);
      visits := visits + [Visit(parent, table, id, vectorOffset, v.builder)];
      var entry, enumId := v.fields[typeId], schema.objects[table].fields[id].typ.index;
      r, added := TypedUnions(vectorOffset, start, length, enumId, entry, parent + entry.offset);
    }

    /** The types start where the word at `field` leads; without it, the elements are not looked at. */
    method TypedUnions(vectorOffset: nat, start: nat, length: nat, enumId: int, entry: Entry, field: nat)
      returns (r: Step, added: seq<Region>)
      requires Sound() && vectorOffset < start <= |binary| && field < 0x5000_0000_0000_0000
      requires Doomed(Input(), visits) <==> ReadsNull(binary, entry, field, length, start)
      modifies this
      ensures Follows(r, added, W.TypedUnions(Input(), old(State()), vectorOffset, length, enumId, entry, field, start))
      ensures r.Proceed? ==> Valid() && Grows(old(sections), sections) && RegionsOk(added, vectorOffset, binary)
      decreases |binary| - vectorOffset, 1
    {
      hide SchemaOk, SectionsOk, Tracked, Doomed, Truthful, NullUnions, UnionsFrom, VTablesFiled, Read, RegionsOk;
      Widths();
      var relative := ReadScalar(field, 2);
      if relative.None? {
        var remaining := RemainingBytes(start);
        RestIsOk(start, vectorOffset);
        return Proceed, [Region(start, remaining, UnknownBytes, remaining, 0)];
      }
      r, added := UnionElements(vectorOffset, start, length, enumId, entry.field.Some?, field + relative.value + 4);
    }

    lemma RestIsOk(offset: nat, start: nat)
      requires start < offset <= |binary|
      ensures RegionsOk([Rest(binary, offset)], start, binary)
    {
    }

    /** The elements of a vector of unions, with or without a field in the entry for the types. */
    ghost predicate FollowsUnions(r: Step, added: seq<Region>, w: Walk, vector: nat, enumId: int, known: bool,
                                  types: nat, length: nat, start: nat)
      requires known ==> Tracked(Input(), w) && vector < |binary| && vector < start
      reads this
    {
      if known then Follows(r, added, UnionsFrom(Input(), w, vector, enumId, types, length, 0, start, []))
      else
        var (regions, isRead) := NullUnions(binary, types, length, 0, start, []);
        (r.NullField? <==> isRead) && (r.Proceed? ==> State() == w && added == regions)
    }

    /** The elements, which the types make tables or structs. `known`: the entry for the types has a field. */
    method UnionElements(vectorOffset: nat, start: nat, length: nat, enumId: int, known: bool, types: nat)
      returns (r: Step, added: seq<Region>)
      requires Sound() && vectorOffset < start <= |binary| && types < 0x7000_0000_0000_0000
      requires known ==> !Doomed(Input(), visits)
      modifies this
      ensures FollowsUnions(r, added, old(State()), vectorOffset, enumId, known, types, length, start)
      ensures r.Proceed? ==> Sound() && Grows(old(sections), sections) && RegionsOk(added, vectorOffset, binary)
      decreases |binary| - vectorOffset, 0
    {
      hide SchemaOk, SectionsOk, Tracked, Doomed, Truthful, RegionsOk, VTablesFiled, Read, Target,
        W.IsValidUnionValue, OffsetRegion, W.BuildUnion, Contains;
      added := [];
      ghost var w := State();
      NothingIsOk(vectorOffset);
      var offset, i := start, 0;
      while i < length
        invariant Sound() && (known ==> !Doomed(Input(), visits)) && (!known ==> State() == w)
        invariant Grows(old(sections), sections) && start <= offset <= |binary|
        invariant known ==>
          UnionsFrom(Input(), State(), vectorOffset, enumId, types, length, i, offset, added)
            == UnionsFrom(Input(), w, vectorOffset, enumId, types, length, 0, start, [])
        invariant !known ==>
          NullUnions(binary, types, length, i, offset, added) == NullUnions(binary, types, length, 0, start, [])
        invariant RegionsOk(added, vectorOffset, binary)
        decreases length - i
      {
        var region, target := ReadOffset(offset);
        OneMoreIsOk(added, vectorOffset, region);
        if target.None? {
          return Proceed, added + [region];
        }
        if !IsValidOffset(target.value) {
          added := added + [region];
        } else {
          var realizedType := ReadScalar(U64(types + i), 1);
          if realizedType.None? {
            var nothing := Region(offset, 0, UnknownBytes, 0, 0);
            NothingFits(added, vectorOffset, nothing);
            added := added + [nothing];
          } else {
            if !known {
              return NullField, added;
            }
            if IsValidUnionValue(enumId, realizedType.value) {
              :- BuildUnion(target.value, realizedType.value, enumId);
              added := added + [region];
            }
            offset := offset + 4;
          }
        }
        i := i + 1;
      }
      r := Proceed;
    }

    lemma NothingIsOk(start: nat)
      ensures RegionsOk([], start, binary)
    {
    }

    lemma OneMoreIsOk(added: seq<Region>, start: nat, r: Region)
      requires RegionsOk(added, start, binary) && Within(r, |binary|) && start < r.offset && Truthful(binary, r)
      ensures RegionsOk(added + [r], start, binary)
    {
    }

    lemma NothingFits(added: seq<Region>, start: nat, r: Region)
      requires RegionsOk(added, start, binary) && start < r.offset && r == Region(r.offset, 0, UnknownBytes, 0, 0)
      ensures RegionsOk(added + [r], start, binary)
    {
    }

    /** Inline structs, or offsets to tables. */
    method BuildObjects(vectorOffset: nat, start: nat, length: nat, index: nat, parent: nat)
      returns (r: Step, added: seq<Region>, ghost end: nat)
      requires Valid() && parent < vectorOffset < start <= |binary| && IsObject(schema, index)
      modifies this
      ensures Follows(r, added, ObjectElements(Input(), old(State()), vectorOffset, start, length, index))
      ensures r.Proceed? ==> Valid() && Grows(old(sections), sections) && ElementsTile(added, vectorOffset, start, end)
      decreases |binary| - vectorOffset, 1
    {
      hide SchemaOk, SectionsOk, VTablesFiled, Tracked, Doomed, ElementsTile, TablesFrom, StructsFrom;
      if schema.objects[index].isStruct {
        added, end := VectorOfStructs(vectorOffset, start, length, index);
        r := Proceed;
      } else {
        r, added, end := VectorOfTables(vectorOffset, start, length, index, parent);
      }
    }

    method BuildElements(vectorOffset: nat, start: nat, length: nat, table: nat, id: nat, parent: nat, v: VTable)
      returns (r: Step, added: seq<Region>, ghost end: nat)
      requires IsTable(schema, table) && parent < vectorOffset < start <= |binary|
      requires id < |schema.objects[table].fields|
        && start == vectorOffset + LengthSize(schema.objects[table].fields[id].typ)
      requires length == Word(binary, vectorOffset, LengthSize(schema.objects[table].fields[id].typ))
      requires Valid() && IsVTableOf(Input(), parent, table, v)
      modifies this
      ensures Follows(r, added, Elements(Input(), old(State()), vectorOffset, length, table, id, parent, v))
      ensures r.Proceed? ==> Valid() && Grows(old(sections), sections) && RegionsOk(added, vectorOffset, binary)
      ensures r.Proceed? && schema.objects[table].fields[id].typ.element != Union ==> Tiles(added, start, end)
      decreases |binary| - vectorOffset, 3
    {
      hide *;
      ValidGoes();
      FieldsAre(table);
      var t := schema.objects[table].fields[id].typ;
      ElementsByType(Input(), State(), vectorOffset, length, table, id, parent, v);
      r, added, end := Proceed, [], start;
      NoneYet(vectorOffset, start);
      if t.element == Obj {
        r, added, end := BuildObjects(vectorOffset, start, length, t.index, parent);
      } else if t.element == Str {
        added, end := VectorOfStrings(vectorOffset, start, length);
      } else if t.element == Union {
        r, added := VectorOfUnions(vectorOffset, start, length, table, id, parent, v);
      } else if IsScalar(t.element) {
        added, end := VectorOfScalars(vectorOffset, start, length, t);
      }
      if t.element != Obj && t.element != Str && t.element != Union {
        StaysAsItIs(added);
      }
      if t.element != Union && r.Proceed? {
        TilesAreOk(added, vectorOffset, start, end);
      }
    }

    lemma StaysAsItIs(added: seq<Region>)
      requires Valid()
      ensures Follows(Proceed, added, Progress(State(), added)) && Grows(sections, sections)
    {
    }

    lemma TilesAreOk(added: seq<Region>, vectorOffset: nat, start: nat, end: nat)
      requires ElementsTile(added, vectorOffset, start, end)
      ensures RegionsOk(added, vectorOffset, binary) && Tiles(added, start, end)
    {
    }

    /** A vector whose length is read, with its elements. */
    method FillVector(vectorOffset: nat, length: nat, table: nat, id: nat, parent: nat, v: VTable) returns (r: Step)
      requires IsTable(schema, table) && parent < vectorOffset
      requires id < |schema.objects[table].fields|
      requires Read(binary, vectorOffset, LengthSize(schema.objects[table].fields[id].typ)) == Some(length)
      requires Valid() && IsVTableOf(Input(), parent, table, v)
      modifies this
      ensures Ends(r, W.FillVector(Input(), old(State()), vectorOffset, length, table, id, parent, v))
      ensures r.Proceed? ==> Valid() && Grows(old(sections), sections) && vectorOffset in sections
      decreases |binary| - vectorOffset, 4
    {
      hide SchemaOk, SectionsOk, Tiles, VTablesFiled, Tracked, Doomed, Remembered, RegionsOk, Elements, Truthful, Get,
        IsValidRead, W.IsValidRead;
      var lengthSize, typ, sectionType := 4, Uint32, VectorSection;
      if schema.objects[table].fields[id].typ.base == Vec64 {
        lengthSize, typ, sectionType := 8, Uint64, Vector64Section;
      }
      var head := Region(vectorOffset, lengthSize, typ, 0, 0);
      LengthIsTruthful(head);
      var more;
      ghost var end;
      r, more, end := BuildElements(vectorOffset, vectorOffset + lengthSize, length, table, id, parent, v);
      if r.Proceed? {
        LengthFits(head, more);
        AddSection(vectorOffset, Section(sectionType, [head] + more));
      }
    }

    /** The end of the last element is computed modulo 2^64, and only checked. */
    method VectorLength(vectorOffset: nat, t: Type) returns (length: Option<nat>)
      requires Valid() && vectorOffset < |binary| && (t.element == Obj ==> IsObject(schema, t.index))
      modifies this`sections
      ensures Valid() && Grows(old(sections), sections)
      ensures (State(), length) == W.VectorLength(Input(), old(State()), vectorOffset, t)
      ensures length.None? ==> vectorOffset in sections
    {
      hide SchemaOk, SectionsOk, VTablesFiled, Tracked, Doomed, Grows, AddTo, Read, IsValidRead, W.IsValidRead,
        Truthful, U64, LastItemOffset, IsObject, NonEmpty, Remembered, Contains;
      ValidGoes();
      StaysAsItIs([]);
      var lengthSize, typ := 4, Uint32;
      if t.base == Vec64 {
        lengthSize, typ := 8, Uint64;
      }
      length := ReadScalar(vectorOffset, lengthSize);
      if length.None? {
        var remaining := RemainingBytes(vectorOffset);
        RestIsTruthful(vectorOffset);
        AddSingleRegion(vectorOffset, VectorSection, Region(vectorOffset, remaining, UnknownBytes, remaining, 0));
        return;
      }
      var head := Region(vectorOffset, lengthSize, typ, 0, 0);
      LengthIsTruthful(head);
      var lastItemOffset: int := LastItemOffset(schema, vectorOffset, t, length.value);
      if !IsValidOffset(U64(lastItemOffset - 1)) {
        AddSingleRegion(vectorOffset, VectorSection, head);
        length := None;
      }
    }

    /** Files the section of a vector, with its elements if they are inside the binary. */
    method BuildVector(vectorOffset: nat, table: nat, id: nat, parent: nat, v: VTable) returns (r: Step)
      requires IsTable(schema, table) && parent < vectorOffset < |binary|
      requires id < |schema.objects[table].fields|
      requires Valid() && IsVTableOf(Input(), parent, table, v)
      modifies this
      ensures Ends(r, W.BuildVector(Input(), old(State()), vectorOffset, table, id, parent, v))
      ensures r.Proceed? ==> Valid() && Grows(old(sections), sections) && ContainsSection(vectorOffset)
      decreases |binary| - vectorOffset, 5
    {
      hide SchemaOk, SectionsOk, VTablesFiled, Tracked, Doomed, Remembered, RegionsOk, W.FillVector, W.VectorLength,
        Contains, Get, IsValidRead, W.IsValidRead;
      FieldIsOk(Input(), table, id);
      KnownIsRemembered(Input(), State(), vectorOffset);
      var t := schema.objects[table].fields[id].typ;
      r := Proceed;
      ComeTo(VectorPlace(vectorOffset, table, id, parent, v.builder));
      if ContainsSection(vectorOffset) {
        return;
      }
      var length := VectorLength(vectorOffset, t);
      if length.Some? {
        r := FillVector(vectorOffset, length.value, table, id, parent, v);
      }
      if r.Proceed? {
        SectionIsContained(sections, vectorOffset);
      }
    }

    lemma RestIsTruthful(offset: nat)
      ensures Truthful(binary, Rest(binary, offset))
    {
    }

    lemma LengthIsTruthful(r: Region)
      requires r.typ == Uint32 || r.typ == Uint64
      requires r == Region(r.offset, WidthOf(r.typ), r.typ, 0, 0) && r.offset + r.length <= |binary|
      ensures Truthful(binary, r)
    {
    }

    lemma LengthFits(head: Region, more: seq<Region>)
      requires RegionsOk(more, head.offset, binary) && 0 < head.length && head.offset + head.length <= |binary|
      requires Truthful(binary, head)
      ensures RegionsOk([head] + more, head.offset, binary)
    {
      hide Truthful;
    }

    lemma SectionIsContained(m: Sections, offset: nat)
      requires SectionsOk(m, binary) && offset in m
      ensures Contains(m, offset)
    {
      var k := Floor(m.Keys, offset);
      assert offset in m.Keys;
    }

    // ---- Unions ---------------------------------------------------------------------------------

    method BuildUnion(unionOffset: nat, realizedType: nat, enumId: int) returns (r: Step)
      requires Valid() && unionOffset < |binary| && IsValidUnionValue(enumId, realizedType)
      modifies this
      ensures Ends(r, W.BuildUnion(Input(), old(State()), unionOffset, realizedType, enumId))
      ensures r.Proceed? ==> Valid() && Grows(old(sections), sections)
      decreases |binary| - unionOffset, 8
    {
      hide SectionsOk, VTablesFiled, Tracked, Doomed, ObjectOk, Contains, Tiles, Solid, RegionsOk, W.BuildTable,
        W.BuildStruct;
      KnownIsRemembered(Input(), State(), unionOffset);
      r := Proceed;
      var unionType := schema.enums[enumId][realizedType];
      if unionType.base == Obj && schema.objects[unionType.index].isStruct {
        ComeTo(StructPlace(unionOffset, unionType.index));
      }
      if ContainsSection(unionOffset) {
        if unionType.base == Obj && !schema.objects[unionType.index].isStruct {
          ContainedTable(Input(), State(), unionOffset, TableSection, unionType.index);
          ComeTo(TablePlace(unionOffset, TableSection, unionType.index));
        }
        return;
      }
      if unionType.base == Obj {
        if schema.objects[unionType.index].isStruct {
          var regions, next := BuildStruct(unionOffset, unionType.index);
          TilesHead(regions, unionOffset, next);
          SolidIsOk(regions, unionOffset, unionOffset, binary);
          TilesToEnd(regions, unionOffset, next);
          AddSection(unionOffset, Section(UnionSection, regions));
        } else {
          r := BuildTable(unionOffset, TableSection, unionType.index);
        }
      }
    }

    // ---- Tables ---------------------------------------------------------------------------------

    ghost predicate AllEntriesOk(table: nat, entries: seq<Entry>)
      requires IsTable(schema, table)
    {
      forall e | e in entries :: e.offset < 0x1_0000
        && (e.field.Some? ==> e.field.value < |schema.objects[table].fields|)
    }

    /** The entries in the order of their offsets, and of their ids where these are equal. */
    method EntriesByOffset(table: nat, fields: map<nat, Entry>) returns (sorted: seq<Entry>)
      requires IsTable(schema, table) && EntriesOk(schema, table, fields)
      ensures sorted == SortedEntries(fields)
      ensures AllEntriesOk(table, sorted) && SortedBy(sorted, ByDistance())
      ensures forall id | id in fields :: fields[id] in sorted
      ensures forall e | e in sorted :: exists id: nat :: id in fields && fields[id] == e
      ensures forall k :: WithKey(sorted, ByDistance(), k) == WithKey(Listed(fields, ID_LIMIT), ByDistance(), k)
    {
      var list := [];
      for id := 0 to ID_LIMIT
        invariant list == Listed(fields, id)
      {
        if id in fields {
          list := list + [fields[id]];
        }
      }
      sorted := StableSort(list, ByDistance());
      SortedHolds(table, fields);
    }

    lemma SortedHolds(table: nat, fields: map<nat, Entry>)
      requires IsTable(schema, table) && EntriesOk(schema, table, fields)
      ensures var sorted := SortedEntries(fields);
        && AllEntriesOk(table, sorted) && SortedBy(sorted, ByDistance())
        && (forall id | id in fields :: fields[id] in sorted)
        && (forall e | e in sorted :: exists id: nat :: id in fields && fields[id] == e)
        && forall k :: WithKey(sorted, ByDistance(), k) == WithKey(Listed(fields, ID_LIMIT), ByDistance(), k)
    {
      hide Listed, StableSort, WithKey, SortedBy;
      var list, sorted := Listed(fields, ID_LIMIT), SortedEntries(fields);
      StableSortSorts(list, ByDistance());
      forall k
        ensures WithKey(sorted, ByDistance(), k) == WithKey(list, ByDistance(), k)
      {
        StableSortIsStable(list, ByDistance(), k);
      }
      assert forall e :: e in sorted <==> e in multiset(sorted);
      assert forall e :: e in list <==> e in multiset(list);
      forall e | e in sorted
        ensures e.offset < 0x1_0000 && (e.field.Some? ==> e.field.value < |schema.objects[table].fields|)
      {
        assert e in list;
        var id: nat :| id in fields && fields[id] == e;
        assert EntryOk(schema, table, id, e);
      }
    }

    /** A field that the schema does not have reaches to the next one, or to the end of the table. */
    method UnknownField(tableOffset: nat, fieldOffset: nat, tableEnd: nat, next: Option<nat>)
      returns (added: seq<Region>)
      requires Valid() && tableOffset < fieldOffset < |binary|
      requires tableEnd < NO_OFFSET && (next.Some? ==> next.value < 0x1_0000)
      ensures added == W.UnknownField(binary, tableOffset, fieldOffset, tableEnd, next)
      ensures RegionsOk(added, tableOffset, binary)
    {
      hide Tracked, Doomed, SchemaOk, SectionsOk, VTablesFiled;
      var length := U64((if next.Some? then tableOffset + next.value else tableEnd) - fieldOffset);
      if length == 0 {
        return [];
      }
      if !IsValidRead(fieldOffset, length) {
        var remaining := RemainingBytes(fieldOffset);
        return [Region(fieldOffset, remaining, UnknownBytes, remaining, 0)];
      }
      ReadIsInside(fieldOffset, length);
      return [Region(fieldOffset, length, UnknownBytes, length, 0)];
    }

    method ScalarField(tableOffset: nat, fieldOffset: nat, base: BaseType) returns (added: seq<Region>)
      requires Valid() && tableOffset < fieldOffset < |binary| && IsScalar(base)
      ensures added == ScalarPiece(binary, fieldOffset, GetTypeSize(base), GetRegionType(base)).added
      ensures RegionsOk(added, tableOffset, binary)
    {
      hide Tracked, Doomed, SchemaOk, SectionsOk, VTablesFiled;
      var size := GetTypeSize(base);
      if !IsValidRead(fieldOffset, size) {
        var remaining := RemainingBytes(fieldOffset);
        return [Region(fieldOffset, remaining, UnknownBytes, remaining, 0)];
      }
      ReadIsInside(fieldOffset, size);
      return [Region(fieldOffset, size, GetRegionType(base), 0, 0)];
    }

    /** A union's type stands in the field before it. */
    method UnionField(tableOffset: nat, word: Region, union: nat, id: nat, enumId: int, fields: map<nat, Entry>)
      returns (r: Step, added: seq<Region>)
      requires Valid() && tableOffset < union < |binary|
      requires RegionsOk([word], tableOffset, binary)
      requires forall k | k in fields :: fields[k].offset < 0x1_0000
      modifies this
      ensures Follows(r, added, W.UnionField(Input(), old(State()), tableOffset, word, union, id, enumId, fields))
      ensures r.Proceed? ==> Valid() && Grows(old(sections), sections) && RegionsOk(added, tableOffset, binary)
      decreases |binary| - tableOffset, 1
    {
      hide SchemaOk, SectionsOk, VTablesFiled, Tracked, Doomed, RegionsOk, Read, W.IsValidUnionValue, W.BuildUnion,
        Truthful;
      added := [];
      NothingIsOk(tableOffset);
      var typeId := (id - 1) % 0x1_0000;
      if typeId !in fields {
        return Proceed, [];
      }
      var typeOffset := tableOffset + fields[typeId].offset;
      var realizedType := ReadScalar(typeOffset, 1);
      if realizedType.None? {
        var remaining := RemainingBytes(typeOffset);
        CutTypeIsOk(typeOffset, tableOffset);
        return Proceed, [Region(typeOffset, remaining, UnknownBytes, remaining, 0)];
      }
      if !IsValidUnionValue(enumId, realizedType.value) {
        return Proceed, [];
      }
      :- BuildUnion(union, realizedType.value, enumId);
      return Proceed, [word];
    }

    lemma CutTypeIsOk(offset: nat, start: nat)
      requires Read(binary, offset, 1).None? && MIN_BUFFER_SIZE <= |binary| < 0x4000_0000_0000_0000
      requires start <= offset && start < |binary| && offset < 0x5000_0000_0000_0000
      ensures RegionsOk([Rest(binary, offset)], start, binary)
    {
    }

    /** What a field's offset leads to. */
    method FollowField(tableOffset: nat, word: Region, table: nat, id: nat, v: VTable)
      returns (r: Step, added: seq<Region>)
      requires IsTable(schema, table) && tableOffset < word.pointsTo < |binary|
      requires id < |schema.objects[table].fields| && !IsScalar(schema.objects[table].fields[id].typ.base)
      requires schema.objects[table].fields[id].typ.base == Obj
        ==> IsTable(schema, schema.objects[table].fields[id].typ.index)
      requires RegionsOk([word], tableOffset, binary)
      requires Valid() && IsVTableOf(Input(), tableOffset, table, v)
      modifies this
      ensures Follows(r, added, W.FollowField(Input(), old(State()), tableOffset, word, table, id, v))
      ensures r.Proceed? ==> Valid() && Grows(old(sections), sections) && RegionsOk(added, tableOffset, binary)
      decreases |binary| - tableOffset, 2
    {
      hide SchemaOk, SectionsOk, VTablesFiled, Tracked, Doomed, RegionsOk, IsScalar, Tiles, Remembered,
        W.BuildTable, W.BuildVector, W.BuildString, W.UnionField, Contains;
      var t := schema.objects[table].fields[id].typ;
      added := [word];
      match t.base
      case Obj =>
        r := BuildTable(word.pointsTo, TableSection, t.index);
      case Str =>
        BuildString(word.pointsTo);
        r := Proceed;
      case Vec =>
        r := BuildVector(word.pointsTo, table, id, tableOffset, v);
      case Vec64 =>
        r := BuildVector(word.pointsTo, table, id, tableOffset, v);
      case Union =>
        EntriesOfVTable(Input(), tableOffset, table, v);
        assert forall k | k in v.fields :: EntryOk(schema, table, k, v.fields[k]);
        r, added := UnionField(tableOffset, word, word.pointsTo, id, t.index, v.fields);
      case _ =>
        NothingIsOk(tableOffset);
        r, added := Proceed, [];
    }

    /** A field that holds an offset leads to a place behind the field. */
    method OffsetField(tableOffset: nat, fieldOffset: nat, table: nat, id: nat, v: VTable)
      returns (r: Step, added: seq<Region>)
      requires IsTable(schema, table) && tableOffset < fieldOffset < |binary|
      requires id < |schema.objects[table].fields| && !IsScalar(schema.objects[table].fields[id].typ.base)
      requires Valid() && IsVTableOf(Input(), tableOffset, table, v)
      modifies this
      ensures Follows(r, added, W.OffsetField(Input(), old(State()), tableOffset, fieldOffset, table, id, v))
      ensures r.Proceed? ==> Valid() && Grows(old(sections), sections) && RegionsOk(added, tableOffset, binary)
      decreases |binary| - tableOffset, 3
    {
      hide SchemaOk, SectionsOk, VTablesFiled, Tracked, Doomed, RegionsOk, Read, Truthful, Remembered, Tiles, Solid,
        W.FollowField, W.BuildStruct, Get, IsScalar;
      var t := schema.objects[table].fields[id].typ;
      FieldIsOk(Input(), table, id);
      added := [];
      if IsInlineField(schema, t) {
        var next;
        added, next := BuildStruct(fieldOffset, t.index);
        SolidIsOk(added, fieldOffset, tableOffset, binary);
        return Proceed, added;
      }
      var relative := ReadScalar(fieldOffset, 4);
      var offset := if relative.Some? then relative.value else 0;
      if offset == 0 {
        var remaining := RemainingBytes(fieldOffset);
        RestIsOk(fieldOffset, tableOffset);
        return Proceed, [Region(fieldOffset, remaining, UnknownBytes, remaining, 0)];
      }
      var nextItem := fieldOffset + offset;
      var word := Region(fieldOffset, 4, UOffset, 0, nextItem);
      OffsetIsOk(fieldOffset, tableOffset, word);
      if !IsValidOffset(nextItem) {
        return Proceed, [word];
      }
      r, added := FollowField(tableOffset, word, table, id, v);
    }

    lemma OffsetIsOk(offset: nat, start: nat, word: Region)
      requires Read(binary, offset, 4).Some? && start < offset
      requires word == Region(offset, 4, UOffset, 0, offset + Read(binary, offset, 4).value)
      ensures RegionsOk([word], start, binary)
    {
    }

    method TableField(tableOffset: nat, tableEnd: nat, table: nat, v: VTable, entry: Entry, next: Option<nat>)
      returns (r: Step, added: seq<Region>)
      requires IsTable(schema, table) && tableOffset < |binary|
      requires tableEnd < NO_OFFSET && (next.Some? ==> next.value < 0x1_0000)
      requires entry.offset < 0x1_0000 && (entry.field.Some? ==> entry.field.value < |schema.objects[table].fields|)
      requires Valid() && IsVTableOf(Input(), tableOffset, table, v)
      modifies this
      ensures Follows(r, added, W.TableField(Input(), old(State()), tableOffset, tableEnd, table, v, entry, next))
      ensures r.Proceed? ==> Valid() && Grows(old(sections), sections) && RegionsOk(added, tableOffset, binary)
      decreases |binary| - tableOffset, 4
    {
      hide SchemaOk, SectionsOk, VTablesFiled, Tracked, Doomed, RegionsOk, Remembered, W.OffsetField, W.UnknownField,
        ScalarPiece, IsScalar, GetTypeSize, GetRegionType;
      added := [];
      NothingIsOk(tableOffset);
      if entry.offset == 0 {
        return Proceed, [];
      }
      var fieldOffset := tableOffset + entry.offset;
      if !IsValidOffset(fieldOffset) {
        return Proceed, [];
      }
      match entry.field
      case None =>
        added := UnknownField(tableOffset, fieldOffset, tableEnd, next);
        return Proceed, added;
      case Some(id) =>
        var base := schema.objects[table].fields[id].typ.base;
        if IsScalar(base) {
          added := ScalarField(tableOffset, fieldOffset, base);
          return Proceed, added;
        } else {
          r, added := OffsetField(tableOffset, fieldOffset, table, id, v);
        }
    }

    method TableFields(tableOffset: nat, tableEnd: nat, table: nat, v: VTable) returns (r: Step, regions: seq<Region>)
      requires tableOffset < |binary|
      requires tableEnd < NO_OFFSET && IsTable(schema, table) && FieldsInSchema(Input(), table, SortedEntries(v.fields))
      requires Valid() && IsVTableOf(Input(), tableOffset, table, v)
      modifies this
      ensures Follows(r, regions,
        TableFieldsFrom(Input(), old(State()), tableOffset, tableEnd, table, v, SortedEntries(v.fields), 0, []))
      ensures r.Proceed? ==> Valid() && Grows(old(sections), sections) && RegionsOk(regions, tableOffset, binary)
      decreases |binary| - tableOffset, 5
    {
      hide SchemaOk, SectionsOk, VTablesFiled, Tracked, Doomed, RegionsOk, Remembered, W.TableField, SortedEntries,
        SortedBy, WithKey, Listed, EntriesOk;
      EntriesOfVTable(Input(), tableOffset, table, v);
      regions := [];
      var fields := EntriesByOffset(table, v.fields);
      ghost var w := State();
      NothingIsOk(tableOffset);
      for i := 0 to |fields|
        invariant Valid() && Grows(old(sections), sections)
        invariant TableFieldsFrom(Input(), State(), tableOffset, tableEnd, table, v, fields, i, regions)
          == TableFieldsFrom(Input(), w, tableOffset, tableEnd, table, v, fields, 0, [])
        invariant RegionsOk(regions, tableOffset, binary)
      {
        assert fields[i] in fields;
        var next := None;
        if i + 1 < |fields| {
          assert fields[i + 1] in fields;
          next := Some(fields[i + 1].offset);
        }
        var more :- TableField(tableOffset, tableEnd, table, v, fields[i], next);
        RegionsJoin(regions, more, tableOffset);
        regions := regions + more;
      }
      r := Proceed;
    }

    lemma RegionsJoin(a: seq<Region>, b: seq<Region>, start: nat)
      requires RegionsOk(a, start, binary) && RegionsOk(b, start, binary)
      ensures RegionsOk(a + b, start, binary)
    {
    }

    /** What is left behind the last region of a table, up to its end, is padding. */
    method PadTable(tableOffset: nat, tableEnd: nat, regions: seq<Region>) returns (padded: seq<Region>)
      requires tableOffset < |binary| && tableEnd <= |binary|
      requires regions != [] && RegionsOk(regions, tableOffset, binary)
      ensures padded == W.PadTable(tableEnd, regions)
      ensures RegionsOk(padded, tableOffset, binary) && padded != [] && padded[0] == regions[0]
      ensures End(regions) + 1 < tableEnd ==> End(padded) == tableEnd
      ensures End(regions) + 1 >= tableEnd ==> padded == regions
    {
      padded := regions;
      var i := End(regions) + 1;
      if i < tableEnd {
        var padBytes := tableEnd - i + 1;
        padded := padded + [Region(i - 1, padBytes, Uint8, padBytes, 0)];
      }
    }

    /** The section of a table: its head, its fields, and padding up to its end. */
    method FileTable(tableOffset: nat, typ: SectionType, tableEnd: nat, head: Region, fields: seq<Region>)
      requires tableOffset < |binary| && tableEnd <= |binary|
      requires head == HeadRegion(binary, tableOffset) && head.length == 4 && Truthful(binary, head)
      requires RegionsOk(fields, tableOffset, binary) && Valid() && !Contiguous(typ)
      modifies this`sections
      ensures Valid() && Grows(old(sections), sections) && tableOffset in sections
      ensures Ends(Proceed, W.FileTable(Input(), old(State()), tableOffset, typ, tableEnd, fields))
    {
      hide Valid, Tracked, Doomed, Truthful, RegionsOk, Read, LeadOf;
      HeadStarts(tableOffset);
      LengthFits(head, fields);
      var regions := PadTable(tableOffset, tableEnd, [head] + fields);
      AddSection(tableOffset, Section(typ, regions));
      ValidGoes();
    }

    /** A table whose vtable is found. */
    method FillTable(tableOffset: nat, typ: SectionType, table: nat, head: Region, vtable: VTable) returns (r: Step)
      requires tableOffset < |binary| && vtable.tableSize < 0x1_0000 && !Contiguous(typ)
      requires head == HeadRegion(binary, tableOffset) && head.length == 4 && Truthful(binary, head)
      requires Valid() && IsVTableOf(Input(), tableOffset, table, vtable)
      modifies this
      ensures Ends(r, W.FillTable(Input(), old(State()), tableOffset, typ, table, vtable))
      ensures r.Proceed? ==> Valid() && Grows(old(sections), sections) && tableOffset in sections
      decreases |binary| - tableOffset, 6
    {
      hide SchemaOk, SectionsOk, VTablesFiled, Tracked, Doomed, RegionsOk, TableFieldsFrom, SortedEntries, LeadOf,
        Truthful, U64, IsVTableOf, IsTable, FieldsInSchema, HeadRegion, W.FileTable, Grows;
      ValidGoes();
      ghost var before := sections;
      SortedInSchema(Input(), tableOffset, table, vtable);
      var tableEnd := tableOffset + vtable.tableSize;
      if !IsValidOffset(U64(tableEnd - 1)) {
        tableEnd := |binary|;
      }
      EndIsInside(tableOffset, vtable);
      var more :- TableFields(tableOffset, tableEnd, table, vtable);
      ghost var walked := sections;
      FileTable(tableOffset, typ, tableEnd, head, more);
      GrowsOn(before, walked, sections);
      return Proceed;
    }

    lemma HeadStarts(tableOffset: nat)
      requires tableOffset + 4 <= |binary|
      ensures HeadRegion(binary, tableOffset).offset == tableOffset
    {
    }

    /** Ends on every input: whatever is built next lies behind this table. */
    method BuildTable(tableOffset: nat, typ: SectionType, table: nat) returns (r: Step)
      requires Valid() && tableOffset < |binary| && IsTable(schema, table) && !Contiguous(typ)
      modifies this
      ensures Ends(r, W.BuildTable(Input(), old(State()), tableOffset, typ, table))
      ensures r.Proceed? ==> Valid() && Grows(old(sections), sections)
      ensures var found := W.EnterTable(Input(), old(State()), tableOffset, typ, table).vtable;
        r.Proceed? && found.Some? && !old(ContainsSection(tableOffset)) ==> tableOffset in sections
      decreases |binary| - tableOffset, 7
    {
      hide SchemaOk, SectionsOk, VTablesFiled, Tracked, Doomed, W.FillTable, Contains, Truthful, LeadOf, Read,
        W.FindVTable, VTableOk, IsVTableOf;
      KnownIsRemembered(Input(), State(), tableOffset);
      ComeTo(TablePlace(tableOffset, typ, table));
      if ContainsSection(tableOffset) {
        return Proceed;
      }
      var found := FindVTable(tableOffset, typ, table);
      if found.None? {
        return Proceed;
      }
      r := FillTable(tableOffset, typ, table, found.value.0, found.value.1);
    }

    lemma EndIsInside(tableOffset: nat, v: VTable)
      requires tableOffset < |binary| < 0x4000_0000_0000_0000 && v.tableSize < 0x1_0000
      ensures TableEnd(binary, tableOffset, v) <= |binary|
    {
    }

    /** The word at the front of a table, and the vtable it leads to; none if either is broken. */
    method FindVTable(tableOffset: nat, typ: SectionType, table: nat) returns (r: Option<(Region, VTable)>)
      requires Valid() && tableOffset < |binary| && IsTable(schema, table)
      modifies this
      ensures Valid() && Grows(old(sections), sections)
      ensures Found(State(), if r.Some? then Some(r.value.1) else None)
        == W.FindVTable(Input(), old(State()), tableOffset, typ, table)
      ensures r.Some? ==> tableOffset + 4 <= |binary| && r.value.0 == HeadRegion(binary, tableOffset)
      ensures r.Some? ==> r.value.0.offset == tableOffset && r.value.0.length == 4 && Truthful(binary, r.value.0)
      ensures r.Some? ==> VTableOk(schema, binary, r.value.0.pointsTo, r.value.1) && r.value.1.table == table
      ensures r.Some? ==> r.value.1.tableSize < 0x1_0000
    {
      hide SchemaOk, SectionsOk, VTablesFiled, Tracked, Doomed, Remembered, W.GetOrBuildVTable;
      Widths();
      var soffset := ReadScalar(tableOffset, 4);
      if soffset.None? {
        var remaining := RemainingBytes(tableOffset);
        AddSingleRegion(tableOffset, typ, Region(tableOffset, remaining, UnknownBytes, remaining, 0));
        return None;
      }
      var vtableOffset := U64(tableOffset - ToSigned(soffset.value, 4));
      var head := Region(tableOffset, 4, SOffset, 0, vtableOffset);
      if !IsValidOffset(vtableOffset) {
        AddSingleRegion(tableOffset, typ, head);
        return None;
      }
      var vtable := GetOrBuildVTable(vtableOffset, table, tableOffset);
      if vtable.None? {
        return None;
      }
      return Some((head, vtable.value));
    }

    // ---- The whole annotation ---------------------------------------------------------------------

    /** Fills the gaps inside every section. */
    method FixMissingRegions()
      requires WellFormed() && SectionsOk(sections, binary)
      modifies this`sections
      ensures SectionsOk(sections, binary) && NonEmpty(old(sections))
      ensures sections == FilledSections(binary, old(sections))
    {
      hide Filled, SectionOk;
      ghost var m := sections;
      AllBelow(binary, m);
      for k := 0 to |binary|
        invariant NonEmpty(m) && sections.Keys == m.Keys
        invariant forall j | j in m ::
          sections[j] == if j < k then m[j].(regions := Filled(binary, m[j].regions)) else m[j]
      {
        if k in sections {
          var regions := FillRegions(binary, sections[k].regions);
          sections := sections[k := sections[k].(regions := regions)];
        }
      }
      forall k | k in sections
        ensures SectionOk(k, sections[k], binary)
      {
        FilledOk(binary, k, m[k]);
      }
    }

    /** Fills the gaps between sections, with a cursor one past the end of the last. */
    method FixMissingSections()
      requires SectionsOk(sections, binary) && 0 in sections && NonEmpty(sections)
      modifies this`sections
      ensures sections == WithMissing(binary, old(sections))
    {
      hide SectionOk, AllMissing;
      var m := sections;
      var offset := 0;
      var toInsert := [];
      for k := 0 to |binary|
        invariant sections == m && offset == SectionCursor(m, k) && toInsert == MissingBefore(binary, m, k)
        invariant offset == 0 ==> k == 0
      {
        if k in m {
          if offset < k {
            var missing := GenerateMissingSection(binary, offset - 1, k - offset + 1);
            toInsert := toInsert + [missing];
          }
          offset := End(m[k].regions) + 1;
        }
      }
      if offset < |binary| {
        var missing := GenerateMissingSection(binary, offset - 1, |binary| - offset + 1);
        toInsert := toInsert + [missing];
      }
      assert toInsert == AllMissing(binary, m) by { Unfold(m); }
      MissingNotEmpty(binary, m, |binary|);
      InsertAll(toInsert);
    }

    lemma Unfold(m: Sections)
      requires NonEmpty(m)
      ensures AllMissing(binary, m) ==
        MissingBefore(binary, m, |binary|) + MissingAt(binary, SectionCursor(m, |binary|), |binary|)
    {
    }

    method InsertAll(toInsert: seq<Section>)
      requires forall s :: s in toInsert ==> s.regions != []
      modifies this`sections
      ensures sections == AddAll(old(sections), toInsert)
    {
      ghost var m := sections;
      for i := 0 to |toInsert|
        invariant sections == AddAll(m, toInsert[..i])
      {
        assert toInsert[..i + 1][..i] == toInsert[..i] && toInsert[i] in toInsert;
        var key := toInsert[i].regions[0].offset;
        sections := if key in sections then sections else sections[key := toInsert[i]];
      }
      assert toInsert[..|toInsert|] == toInsert;
    }

    lemma ContiguousStay(m: Sections)
      requires SectionsOk(m, binary)
      ensures forall k | k in m && Contiguous(m[k].typ) ::
        k in WithMissing(binary, FilledSections(binary, m)) && WithMissing(binary, FilledSections(binary, m))[k] == m[k]
    {
      hide Contiguous, Tiles, WithMissing, FilledSections, RegionsOk, Apart;
      forall k | k in m && Contiguous(m[k].typ)
        ensures k in WithMissing(binary, FilledSections(binary, m))
        ensures WithMissing(binary, FilledSections(binary, m))[k] == m[k]
      {
        assert SectionOk(k, m[k], binary);
        PassesKeep(binary, m, k);
      }
    }

    /** Both passes: whatever was there and had no gaps stays, and no two neighbouring bytes are without a section. */
    method FixMissing()
      requires WellFormed() && SectionsOk(sections, binary) && 0 in sections
      modifies this`sections
      ensures SectionsOk(sections, binary) && NonEmpty(old(sections))
      ensures sections == WithMissing(binary, FilledSections(binary, old(sections)))
      ensures forall k | k in old(sections) && Contiguous(old(sections)[k].typ) ::
        k in sections && sections[k] == old(sections)[k]
      ensures forall p | 0 <= p < |binary| - 1 :: Covered(sections, p) || Covered(sections, p + 1)
    {
      hide SchemaOk, SectionsOk, Contiguous, WithMissing;
      ContiguousStay(sections);
      FixMissingRegions();
      AllBelow(binary, sections);
      ghost var m := sections;
      FixMissingSections();
      PassKeepsOk(binary, m);
      PassFillsGaps(binary, m);
      forall p | 0 <= p < |binary| - 1
        ensures Covered(sections, p) || Covered(sections, p + 1)
      {
        NoWideGaps(binary, m, p);
      }
    }

    /**
     The sections of a binary; none when a null field is read. Every byte that any region
     covers is in the binary, every section begins where it is filed, and no two neighbouring
     bytes are without a section.
     */
    method Annotate() returns (r: Option<Sections>)
      requires WellFormed()
      modifies this
      ensures |binary| < MIN_BUFFER_SIZE ==> r == Some(map[])
      ensures |binary| >= MIN_BUFFER_SIZE ==>
        (r.None? <==> exists v :: v in WalkAll(Input(), rootTable, isSizePrefixed).w.visits && Danger(Input(), v))
      ensures |binary| >= MIN_BUFFER_SIZE && r.Some? ==>
        r == Some(WithMissing(binary, FilledSections(binary, WalkAll(Input(), rootTable, isSizePrefixed).w.sections)))
      ensures r.Some? ==> SectionsOk(r.value, binary)
      ensures |binary| >= MIN_BUFFER_SIZE && r.Some? ==>
        0 in r.value && r.value[0] == Section(Header, W.HeaderRegions(binary, isSizePrefixed))
      ensures r.Some? && |binary| >= MIN_BUFFER_SIZE ==>
        forall p | 0 <= p < |binary| - 1 :: Covered(r.value, p) || Covered(r.value, p + 1)
    {
      hide SchemaOk, SectionsOk, SectionOk, TilesHeader, Tracked, Doomed, Danger, W.HeaderRegions, W.BuildTable;
      if |binary| < MIN_BUFFER_SIZE {
        NoSectionIsOk();
        return Some(map[]);
      }
      vtables := map[];
      sections := map[];
      visits := [];
      arrivals := [];
      assert SectionsOk(sections, binary) by { NoSectionIsOk(); }
      NothingIsTracked(Input());
      DoomedMeans(Input(), WalkAll(Input(), rootTable, isSizePrefixed).w.visits);
      var root := BuildHeader();
      if IsValidOffset(root) {
        var walked := BuildTable(root, RootTable, rootTable);
        if walked.NullField? {
          return None;
        }
      }
      FixMissing();
      r := Some(sections);
    }

    lemma NoSectionIsOk()
      ensures SectionsOk(map[], binary)
    {
    }
  }
}
