/**
 What the section of a table shows: a region at every field that is inside the binary, apart from
 fields of unknown type or length zero and unions without a valid type.
 */
module TableRegions {
  import opened Codec
  import opened Wrappers
  import opened Annotated
  import opened Sorting
  import opened Gaps
  import opened Walks

  // ---- Structs begin where they stand ---------------------------------------------------

  lemma {:induction false} StructStarts(c: Context, at: nat, index: nat, k: nat)
    requires SchemaOk(c.schema, c.ranks) && IsStruct(c.schema, index) && 0 < k <= |c.schema.objects[index].fields|
    ensures StructUpTo(c, at, index, k).added[0].offset == at
    decreases c.ranks[index], 1, k
  {
    hide ScalarPiece, IsScalar;
    assert ObjectOk(c.schema, c.ranks, index);
    var before, field := StructUpTo(c, at, index, k - 1), c.schema.objects[index].fields[k - 1];
    assert field in c.schema.objects[index].fields;
    if k == 1 {
      FieldStarts(c, at, c.ranks[index], field);
    } else {
      StructStarts(c, at, index, k - 1);
    }
  }

  lemma {:induction false} FieldStarts(c: Context, at: nat, rank: nat, field: Field)
    requires SchemaOk(c.schema, c.ranks) && StructFieldOk(c.schema, c.ranks, rank, field)
    ensures StructField(c, at, rank, field).added[0].offset == at
    decreases rank, 0, 1, 0
  {
    if field.typ.base == Obj {
      assert ObjectOk(c.schema, c.ranks, field.typ.index);
      StructStarts(c, at, field.typ.index, |c.schema.objects[field.typ.index].fields|);
    } else if field.typ.base == Arr {
      ArrayStarts(c, at, rank, field, field.typ.fixedLength);
    }
  }

  lemma {:induction false} ArrayStarts(c: Context, at: nat, rank: nat, field: Field, k: nat)
    requires SchemaOk(c.schema, c.ranks) && StructFieldOk(c.schema, c.ranks, rank, field)
    requires field.typ.base == Arr && k > 0
    ensures ArrayUpTo(c, at, rank, field, k).0.added[0].offset == at
    decreases rank, 0, 0, k
  {
    if k > 1 {
      ArrayStarts(c, at, rank, field, k - 1);
    } else {
      ElementStarts(c, at, rank, field);
      assert ArrayUpTo(c, at, rank, field, 0) == (Piece([], at), true);
      assert k - 1 == 0;
    }
  }

  lemma {:induction false} ElementStarts(c: Context, at: nat, rank: nat, field: Field)
    requires SchemaOk(c.schema, c.ranks) && StructFieldOk(c.schema, c.ranks, rank, field) && field.typ.base == Arr
    ensures ArrayElement(c, at, rank, field).0.added[0].offset == at
    decreases rank, 0, 0, 0
  {
    if !IsScalar(field.typ.element) {
      assert ObjectOk(c.schema, c.ranks, field.typ.index);
      StructStarts(c, at, field.typ.index, |c.schema.objects[field.typ.index].fields|);
    }
  }

  // ---- Fields ---------------------------------------------------------------------------

  /** Where the field that holds an offset leads, if that is inside the binary. */
  predicate LeadsInside(binary: seq<byte>, field: nat) {
    && Read(binary, field, 4).Some? && Read(binary, field, 4).value != 0
    && IsValidOffset(binary, field + Read(binary, field, 4).value)
  }

  /** The union's type is read and is one of the schema's. */
  predicate HasUnionType(c: Context, at: nat, id: nat, enumId: int, fields: map<nat, Entry>) {
    && TypeId(id) in fields && Read(c.binary, at + fields[TypeId(id)].offset, 1).Some?
    && IsValidUnionValue(c.schema, enumId, Read(c.binary, at + fields[TypeId(id)].offset, 1).value)
  }

  /** The field is present, inside the binary, and of a type that is annotated. */
  predicate Shown(c: Context, at: nat, end: nat, table: nat, fields: map<nat, Entry>, entry: Entry, next: Option<nat>)
    requires IsTable(c.schema, table) && (entry.field.Some? ==> entry.field.value < |FieldsOf(c, table)|)
  {
    var field := at + entry.offset;
    && entry.offset != 0 && IsValidOffset(c.binary, field)
    && match entry.field
       case None => U64((if next.Some? then at + next.value else end) - field) != 0
       case Some(id) =>
         var t := FieldsOf(c, table)[id].typ;
         || IsScalar(t.base) || t.base == Obj || t.base == Str || t.base == Vec || t.base == Vec64
         || !LeadsInside(c.binary, field) || (t.base == Union && HasUnionType(c, at, id, t.index, fields))
  }

  predicate StartsAt(regions: seq<Region>, offset: nat) {
    regions != [] && regions[0].offset == offset
  }

  lemma InlineStructIsShown(c: Context, field: nat, index: nat)
    requires SchemaOk(c.schema, c.ranks) && IsStruct(c.schema, index)
    ensures StartsAt(BuildStruct(c, field, index).added, field)
  {
    assert ObjectOk(c.schema, c.ranks, index);
    StructStarts(c, field, index, |c.schema.objects[index].fields|);
  }

  lemma FollowedIsShown(c: Context, w: Walk, at: nat, word: Region, table: nat, id: nat, v: VTable)
    requires IsTable(c.schema, table) && at < word.pointsTo < |c.binary|
    requires id < |FieldsOf(c, table)| && !IsScalar(FieldsOf(c, table)[id].typ.base)
    requires FieldsOf(c, table)[id].typ.base == Obj ==> IsTable(c.schema, FieldsOf(c, table)[id].typ.index)
    requires Tracked(c, w) && IsVTableOf(c, at, table, v)
    requires var t := FieldsOf(c, table)[id].typ;
      t.base == Obj || t.base == Str || t.base == Vec || t.base == Vec64
      || (t.base == Union && HasUnionType(c, at, id, t.index, v.fields))
    ensures FollowField(c, w, at, word, table, id, v).added == [word]
  {
    hide Tracked, Doomed, SchemaOk, IsVTableOf, Read, IsValidUnionValue, BuildTable, BuildVector, BuildString,
      BuildUnion;
  }

  lemma OffsetIsShown(c: Context, w: Walk, at: nat, field: nat, table: nat, id: nat, v: VTable)
    requires IsTable(c.schema, table) && at < field < |c.binary|
    requires id < |FieldsOf(c, table)| && !IsScalar(FieldsOf(c, table)[id].typ.base)
    requires Tracked(c, w) && IsVTableOf(c, at, table, v)
    requires var t := FieldsOf(c, table)[id].typ;
      t.base == Obj || t.base == Str || t.base == Vec || t.base == Vec64 || !LeadsInside(c.binary, field)
      || (t.base == Union && HasUnionType(c, at, id, t.index, v.fields))
    ensures StartsAt(OffsetField(c, w, at, field, table, id, v).added, field)
  {
    hide Tracked, Doomed, SchemaOk, IsVTableOf, Read, HasUnionType, FollowField, BuildStruct, IsScalar, U64, Get;
    VTableIsOfSchema(c, at, table, v);
    FieldIsOk(c, table, id);
    var t := FieldsOf(c, table)[id].typ;
    if IsInlineField(c.schema, t) {
      InlineStructIsShown(c, field, t.index);
    } else if LeadsInside(c.binary, field) {
      var relative := Read(c.binary, field, 4);
      FollowedIsShown(c, w, at, Region(field, 4, UOffset, 0, field + relative.value), table, id, v);
    }
  }

  /** A field that is shown gets a region that begins at it. */
  lemma FieldIsShown(c: Context, w: Walk, at: nat, end: nat, table: nat, v: VTable, entry: Entry, next: Option<nat>)
    requires IsTable(c.schema, table) && at < |c.binary|
    requires entry.field.Some? ==> entry.field.value < |FieldsOf(c, table)|
    requires Tracked(c, w) && IsVTableOf(c, at, table, v)
    requires Shown(c, at, end, table, v.fields, entry, next)
    ensures StartsAt(TableField(c, w, at, end, table, v, entry, next).added, at + entry.offset)
  {
    hide Tracked, Doomed, SchemaOk, IsVTableOf, LeadsInside, HasUnionType, OffsetField, IsScalar;
    if entry.field.Some? && !IsScalar(FieldsOf(c, table)[entry.field.value].typ.base) {
      OffsetIsShown(c, w, at, at + entry.offset, table, entry.field.value, v);
    }
  }

  // ---- Tables ---------------------------------------------------------------------------

  /** Some region begins there. */
  ghost predicate Shows(regions: seq<Region>, offset: nat) {
    exists r :: r in regions && r.offset == offset
  }

  /** Where the next field begins, as far as the loop looks. */
  function NextOf(fields: seq<Entry>, k: nat): Option<nat> {
    if k + 1 < |fields| then Some(fields[k + 1].offset) else None
  }

  /** Field number `k`, in the order of the offsets, is shown. */
  ghost predicate ShownAt(c: Context, at: nat, end: nat, table: nat, v: VTable, fields: seq<Entry>, k: nat)
    requires IsTable(c.schema, table) && FieldsInSchema(c, table, fields) && k < |fields|
  {
    assert fields[k] in fields;
    Shown(c, at, end, table, v.fields, fields[k], NextOf(fields, k))
  }

  /** What was added stays, and every field that is still to come and is shown gets its region. */
  lemma {:induction false} FieldsAreShown(c: Context, w: Walk, at: nat, end: nat, table: nat, v: VTable,
                                          fields: seq<Entry>, i: nat, added: seq<Region>, k: nat)
    requires at < |c.binary| && i <= k < |fields| && IsTable(c.schema, table) && FieldsInSchema(c, table, fields)
    requires Tracked(c, w) && IsVTableOf(c, at, table, v)
    requires ShownAt(c, at, end, table, v, fields, k)
    ensures Shows(TableFieldsFrom(c, w, at, end, table, v, fields, i, added).added, at + fields[k].offset)
    decreases |fields| - i
  {
    hide Tracked, Doomed, SchemaOk, IsVTableOf, Shown, TableField;
    assert fields[i] in fields;
    var p := TableField(c, w, at, end, table, v, fields[i], NextOf(fields, i));
    if i == k {
      FieldIsShown(c, w, at, end, table, v, fields[i], NextOf(fields, i));
      var all := added + p.added;
      assert p.added[0] in all;
      FieldsStay(c, p.w, at, end, table, v, fields, i + 1, all, p.added[0]);
    } else {
      FieldsAreShown(c, p.w, at, end, table, v, fields, i + 1, added + p.added, k);
    }
  }

  lemma {:induction false} FieldsStay(c: Context, w: Walk, at: nat, end: nat, table: nat, v: VTable, fields: seq<Entry>,
                                      i: nat, added: seq<Region>, r: Region)
    requires at < |c.binary| && i <= |fields| && IsTable(c.schema, table) && FieldsInSchema(c, table, fields)
    requires Tracked(c, w) && IsVTableOf(c, at, table, v) && r in added
    ensures r in TableFieldsFrom(c, w, at, end, table, v, fields, i, added).added
    decreases |fields| - i
  {
    hide Tracked, Doomed, SchemaOk, IsVTableOf, TableField;
    if i < |fields| {
      assert fields[i] in fields;
      var p := TableField(c, w, at, end, table, v, fields[i], NextOf(fields, i));
      FieldsStay(c, p.w, at, end, table, v, fields, i + 1, added + p.added, r);
    }
  }

  /** The walk after the fields of a table, before its own section is filed. */
  ghost function AfterFields(c: Context, w: Walk, at: nat, table: nat, v: VTable): Progress
    requires at < |c.binary| && Tracked(c, w) && IsVTableOf(c, at, table, v)
  {
    hide Tracked, Doomed, IsVTableOf, SortedEntries;
    SortedInSchema(c, at, table, v);
    TableFieldsFrom(c, w, at, TableEnd(c.binary, at, v), table, v, SortedEntries(v.fields), 0, [])
  }

  /**
   A table that is new and has a vtable gets a section at its place; and unless the vtable of a
   table behind it has taken that place, the section begins with the table's offset to its vtable
   and has a region at every field that is shown.
   */
  lemma TableIsShown(c: Context, w: Walk, at: nat, typ: SectionType, table: nat, v: VTable, k: nat)
    requires at < |c.binary| && IsTable(c.schema, table)
    requires Tracked(c, w) && NonEmpty(w.sections) && !Contains(w.sections, at)
    requires EnterTable(c, w, at, typ, table).vtable == Some(v)
    ensures var walked, sections := AfterFields(c, EnterTable(c, w, at, typ, table).w, at, table, v).w.sections,
                                    BuildTable(c, w, at, typ, table).w.sections;
      && at in sections
      && (at !in walked ==> sections[at].typ == typ && sections[at].regions != [])
      && (at !in walked ==> sections[at].regions[0] == HeadRegion(c.binary, at))
      && (at !in walked && k < |SortedEntries(v.fields)| && FieldsInSchema(c, table, SortedEntries(v.fields))
          && ShownAt(c, at, TableEnd(c.binary, at, v), table, v, SortedEntries(v.fields), k) ==>
            Shows(sections[at].regions, at + SortedEntries(v.fields)[k].offset))
  {
    hide Tracked, Doomed, SchemaOk, IsVTableOf, Contains, EnterTable, SortedEntries, TableFieldsFrom, HeadRegion,
      ShownAt;
    SortedInSchema(c, at, table, v);
    var end, fields, w1 := TableEnd(c.binary, at, v), SortedEntries(v.fields), EnterTable(c, w, at, typ, table).w;
    var p := AfterFields(c, w1, at, table, v);
    if k < |fields| && ShownAt(c, at, end, table, v, fields, k) {
      FieldsAreShown(c, w1, at, end, table, v, fields, 0, [], k);
      var r :| r in p.added && r.offset == at + fields[k].offset;
      assert r in PadTable(end, [HeadRegion(c.binary, at)] + p.added);
    }
  }

  // ---- After both passes ----------------------------------------------------------------

  /** The table's section: of its type, with the offset to its vtable, and a region at every field that is shown. */
  ghost predicate ShowsTable(c: Context, s: Section, at: nat, typ: SectionType, table: nat, v: VTable)
    requires at < |c.binary| && IsVTableOf(c, at, table, v)
  {
    hide *;
    SortedInSchema(c, at, table, v);
    var fields, end := SortedEntries(v.fields), TableEnd(c.binary, at, v);
    && s.typ == typ && HeadRegion(c.binary, at) in s.regions
    && forall k: nat | k < |fields| && ShownAt(c, at, end, table, v, fields, k) ::
         Shows(s.regions, at + fields[k].offset)
  }

  /** All fields of a table at once. */
  lemma SectionShows(c: Context, w: Walk, at: nat, typ: SectionType, table: nat, v: VTable)
    requires at < |c.binary| && IsTable(c.schema, table)
    requires Tracked(c, w) && NonEmpty(w.sections) && !Contains(w.sections, at)
    requires EnterTable(c, w, at, typ, table).vtable == Some(v)
    requires at !in AfterFields(c, EnterTable(c, w, at, typ, table).w, at, table, v).w.sections
    ensures at in BuildTable(c, w, at, typ, table).w.sections
    ensures ShowsTable(c, BuildTable(c, w, at, typ, table).w.sections[at], at, typ, table, v)
  {
    hide Tracked, Doomed, SchemaOk, IsVTableOf, Contains, EnterTable, SortedEntries, BuildTable, HeadRegion, ShownAt,
      AfterFields, Shows, TableEnd, FieldsInSchema;
    SortedInSchema(c, at, table, v);
    TableIsShown(c, w, at, typ, table, v, 0);
    var fields, end := SortedEntries(v.fields), TableEnd(c.binary, at, v);
    forall k: nat | k < |fields| && ShownAt(c, at, end, table, v, fields, k)
      ensures Shows(BuildTable(c, w, at, typ, table).w.sections[at].regions, at + fields[k].offset)
    {
      TableIsShown(c, w, at, typ, table, v, k);
    }
  }

  lemma ShowsMore(c: Context, s: Section, t: Section, at: nat, typ: SectionType, table: nat, v: VTable)
    requires at < |c.binary| && IsVTableOf(c, at, table, v) && ShowsTable(c, s, at, typ, table, v)
    requires s.typ == t.typ && forall r | r in s.regions :: r in t.regions
    ensures ShowsTable(c, t, at, typ, table, v)
  {
    hide IsVTableOf, SortedEntries, HeadRegion, ShownAt, TableEnd, FieldsInSchema;
  }

  /** The passes lose nothing of a table that is shown. */
  lemma TableStaysShown(c: Context, m: Sections, at: nat, typ: SectionType, table: nat, v: VTable)
    requires at < |c.binary| && IsVTableOf(c, at, table, v)
    requires NonEmpty(m) && at in m && ShowsTable(c, m[at], at, typ, table, v)
    ensures var r := WithMissing(c.binary, FilledSections(c.binary, m));
      at in r && ShowsTable(c, r[at], at, typ, table, v)
  {
    hide IsVTableOf, ShowsTable, WithMissing, FilledSections, Tiles, Apart, Subsequence;
    PassesKeep(c.binary, m, at);
    ShowsMore(c, m[at], WithMissing(c.binary, FilledSections(c.binary, m))[at], at, typ, table, v);
  }

  /** The root table in the finished annotation. */
  lemma RootIsShown(c: Context, rootTable: nat, isSizePrefixed: bool, v: VTable)
    requires Walkable(c) && IsTable(c.schema, rootTable) && RootLocation(c.binary, isSizePrefixed) < |c.binary|
    requires var w, root := WalkHeader(c, isSizePrefixed), RootLocation(c.binary, isSizePrefixed);
      && NonEmpty(w.sections) && !Contains(w.sections, root)
      && EnterTable(c, w, root, RootTable, rootTable).vtable == Some(v)
      && root !in AfterFields(c, EnterTable(c, w, root, RootTable, rootTable).w, root, rootTable, v).w.sections
    ensures var m, root := WalkAll(c, rootTable, isSizePrefixed).w.sections, RootLocation(c.binary, isSizePrefixed);
      var r := WithMissing(c.binary, FilledSections(c.binary, m));
      root in r && IsVTableOf(c, root, rootTable, v) && ShowsTable(c, r[root], root, RootTable, rootTable, v)
  {
    hide Tracked, Doomed, SchemaOk, IsVTableOf, Contains, EnterTable, WalkHeader, BuildTable, AfterFields, ShowsTable,
      WithMissing, FilledSections, RootLocation;
    var w, root := WalkHeader(c, isSizePrefixed), RootLocation(c.binary, isSizePrefixed);
    SectionShows(c, w, root, RootTable, rootTable, v);
    KnownIsRemembered(c, WalkAll(c, rootTable, isSizePrefixed).w, root);
    TableStaysShown(c, WalkAll(c, rootTable, isSizePrefixed).w.sections, root, RootTable, rootTable, v);
  }
}
