/**
 The walk obeys the law of Links: every part of it, from one state to a later one, follows all links
 of the places that it comes to and files their sections. At the end stand the results about the whole
 walk and the finished annotation.
 */
module Closure {
  import opened Codec
  import opened Wrappers
  import opened Annotated
  import opened Sorting
  import opened Gaps
  import opened Walks
  import opened TableRegions
  import opened Links

  // ---- Strings ------------------------------------------------------------------------------

  lemma StringIsShown(binary: seq<byte>, at: nat)
    requires MIN_BUFFER_SIZE <= |binary| < 0x4000_0000_0000_0000 && at < |binary|
    ensures ShowsString(binary, Section(StringSection, StringRegions(binary, at)), at)
  {
    hide Get;
  }

  lemma StringWent(c: Context, floor: int, w: Walk, at: nat)
    requires Tracked(c, w) && NonEmpty(w.sections) && VTablesStand(c, w) && floor < at < |c.binary|
    ensures Went(c, floor, |w.arrivals|, w, BuildString(c, w, at)) && Reaches(w, BuildString(c, w, at), StringPlace(at))
  {
    hide Tracked, VTablesStand, Went, Contains, Reaches, ShowsString, StringRegions;
    TrackedIsWalkable(c, w);
    if Contains(w.sections, at) {
      ArrivesAtContained(c, floor, w, StringPlace(at));
    } else {
      NotThere(w.sections, at);
      StringIsShown(c.binary, at);
      ArrivesAndFiles(c, floor, w, StringPlace(at), Section(StringSection, StringRegions(c.binary, at)));
    }
  }

  // ---- Vectors of offsets ---------------------------------------------------------------------

  lemma TrackedParts(c: Context, w: Walk)
    requires Tracked(c, w)
    ensures NonEmpty(w.sections) && SchemaOk(c.schema, c.ranks) && MIN_BUFFER_SIZE <= |c.binary| < 0x4000_0000_0000_0000
  {
    hide SchemaOk, Remembered, VisitOk;
  }

  /** The loops read an element exactly if its word is inside the binary. */
  lemma TargetLeads(binary: seq<byte>, offset: nat)
    requires MIN_BUFFER_SIZE <= |binary| < 0x4000_0000_0000_0000
    ensures offset + 4 <= |binary| ==> Target(binary, offset) == Some(offset + Get(binary, offset, 4))
    ensures Leads(binary, offset).Some? <==> Target(binary, offset).Some? && Target(binary, offset).value < |binary|
    ensures Leads(binary, offset).Some? ==> Leads(binary, offset) == Target(binary, offset)
  {
    hide Get;
  }

  lemma {:induction false} StringsWent(c: Context, floor: int, w: Walk, length: nat, i: nat, offset: nat,
                                       added: seq<Region>, j: nat)
    requires Tracked(c, w) && VTablesStand(c, w) && floor < offset && i <= j
    ensures var p := StringsFrom(c, w, length, i, offset, added);
      && Went(c, floor, |w.arrivals|, w, p.w)
      && (j < length && Leads(c.binary, offset + 4 * (j - i)).Some? ==>
           Reaches(w, p.w, StringPlace(Leads(c.binary, offset + 4 * (j - i)).value)))
    decreases length - i
  {
    hide Tracked, VTablesStand, Went, Contains, Reaches, StringsFrom, BuildString, Target, Leads, NonEmpty,
      OffsetRegion, Get, SchemaOk;
    TrackedParts(c, w);
    NextString(c, w, length, i, offset, added);
    TargetLeads(c.binary, offset);
    var p, all, target := StringsFrom(c, w, length, i, offset, added), added + [OffsetRegion(c.binary, offset)],
                          Target(c.binary, offset);
    if i < length && target.Some? {
      var w1 := if IsValidOffset(c.binary, target.value) then BuildString(c, w, target.value) else w;
      if IsValidOffset(c.binary, target.value) {
        StringWent(c, floor, w, target.value);
      } else {
        WentNowhere(c, floor, w);
      }
      WentGives(c, floor, |w.arrivals|, w, w1);
      StringsWent(c, floor, w1, length, i + 1, offset + 4, all, if j > i then j else i + 1);
      WentOn(c, floor, |w.arrivals|, w, w1, |w1.arrivals|, p.w);
      WentGives(c, floor, |w1.arrivals|, w1, p.w);
      NowOrLater(w, w1, p.w, j == i, StringPlace(offset + Get(c.binary, offset, 4)));
      var far := offset + 4 * (j - i);
      if i < j < length && Leads(c.binary, far).Some? {
        assert far == (offset + 4) + 4 * (j - (i + 1));
        ReachesOn(w, w1, p.w, p.w, StringPlace(Leads(c.binary, far).value));
      }
    } else {
      WentNowhere(c, floor, w);
      LeadsFar(c.binary, offset, 4 * (j - i));
    }
  }

  lemma WentGives(c: Context, floor: int, lo: nat, w: Walk, w1: Walk)
    requires Went(c, floor, lo, w, w1)
    ensures NonEmpty(w1.sections) && VTablesStand(c, w1) && w.arrivals <= w1.arrivals && Grows(w.sections, w1.sections)
  {
  }

  lemma NowOrLater(w: Walk, w1: Walk, w2: Walk, now: bool, q: Place)
    requires w1.arrivals <= w2.arrivals
    ensures now && Reaches(w, w1, q) ==> Reaches(w, w2, q)
  {
    if now && Reaches(w, w1, q) {
      ReachesOn(w, w, w1, w2, q);
    }
  }

  /** Where a word is not inside the binary, no later one is. */
  lemma LeadsFar(binary: seq<byte>, offset: nat, more: nat)
    ensures |binary| < offset + 4 ==> Leads(binary, offset + more).None?
  {
  }

  /** The same with a word that is known to lead inside. */
  lemma LeadsThere(binary: seq<byte>, offset: nat, target: nat)
    requires Leads(binary, offset) == Some(target)
    ensures offset + 4 <= |binary| && target == offset + Get(binary, offset, 4) < |binary|
  {
  }

  lemma {:induction false} TablesWent(c: Context, w: Walk, vector: nat, table: nat, length: nat, i: nat, offset: nat,
                                      added: seq<Region>, j: nat)
    requires Tracked(c, w) && VTablesStand(c, w) && IsTable(c.schema, table)
    requires vector < |c.binary| && vector < offset && i <= j
    ensures var p := TablesFrom(c, w, vector, table, length, i, offset, added);
      && Went(c, vector, |w.arrivals|, w, p.w)
      && (j < length && Leads(c.binary, offset + 4 * (j - i)).Some? ==>
           Reaches(w, p.w, TablePlace(Leads(c.binary, offset + 4 * (j - i)).value, TableSection, table)))
    decreases |c.binary| - vector, 0, length - i
  {
    hide Tracked, VTablesStand, Went, Contains, Reaches, TablesFrom, BuildTable, Target, Leads, NonEmpty, OffsetRegion,
      Get, SchemaOk, IsTable;
    TrackedParts(c, w);
    NextTable(c, w, vector, table, length, i, offset, added);
    TargetLeads(c.binary, offset);
    var p, all, target := TablesFrom(c, w, vector, table, length, i, offset, added),
                          added + [OffsetRegion(c.binary, offset)], Target(c.binary, offset);
    if i < length && target.Some? {
      var w1 := FollowTable(c, w, vector, table, target.value).w;
      if IsValidOffset(c.binary, target.value) {
        TableWent(c, vector, w, target.value, TableSection, table);
      } else {
        WentNowhere(c, vector, w);
      }
      WentGives(c, vector, |w.arrivals|, w, w1);
      TablesWent(c, w1, vector, table, length, i + 1, offset + 4, all, if j > i then j else i + 1);
      WentOn(c, vector, |w.arrivals|, w, w1, |w1.arrivals|, p.w);
      WentGives(c, vector, |w1.arrivals|, w1, p.w);
      NowOrLater(w, w1, p.w, j == i, TablePlace(offset + Get(c.binary, offset, 4), TableSection, table));
      var far := offset + 4 * (j - i);
      if i < j < length && Leads(c.binary, far).Some? {
        assert far == (offset + 4) + 4 * (j - (i + 1));
        ReachesOn(w, w1, p.w, p.w, TablePlace(Leads(c.binary, far).value, TableSection, table));
      }
    } else {
      WentNowhere(c, vector, w);
      LeadsFar(c.binary, offset, 4 * (j - i));
    }
  }

  /** The next `j` elements and the one behind them lead inside, and that one has this type. */
  predicate UnionRead(c: Context, types: nat, offset: nat, enumId: int, j: nat, q: Place) {
    && types + j < |c.binary| && LeadInside(c.binary, offset, j + 1) && Leads(c.binary, offset + 4 * j).Some?
    && UnionLink(c, enumId, c.binary[types + j], Leads(c.binary, offset + 4 * j).value, q)
  }

  lemma LeadInsideStep(binary: seq<byte>, offset: nat, j: nat)
    requires LeadInside(binary, offset, j + 1)
    ensures Leads(binary, offset).Some? && LeadInside(binary, offset + 4, j)
  {
    hide Leads;
    assert Leads(binary, offset + 4 * 0).Some?;
    forall k | 0 <= k < j
      ensures Leads(binary, offset + 4 + 4 * k).Some?
    {
      assert Leads(binary, offset + 4 * (k + 1)).Some?;
    }
  }

  /** The first of them is read, and the rest from the next cursor on. */
  lemma UnionReadStep(c: Context, types: nat, offset: nat, enumId: int, j: nat, q: Place)
    requires UnionRead(c, types, offset, enumId, j, q) && MIN_BUFFER_SIZE <= |c.binary| < 0x4000_0000_0000_0000
    ensures types < |c.binary| && Leads(c.binary, offset).Some?
    ensures Read(c.binary, U64(types), 1) == Some(c.binary[types] as nat)
    ensures j > 0 ==> UnionRead(c, types + 1, offset + 4, enumId, j - 1, q)
    ensures j == 0 ==> UnionLink(c, enumId, c.binary[types], Leads(c.binary, offset).value, q)
  {
    hide UnionLink, Leads, LeadInside;
    LeadInsideStep(c.binary, offset, j);
    OneByte(c.binary, types);
    if j > 0 {
      assert offset + 4 + 4 * (j - 1) == offset + 4 * j && types + 1 + (j - 1) == types + j;
    }
  }

  lemma OneByte(binary: seq<byte>, at: nat)
    requires MIN_BUFFER_SIZE <= |binary| < 0x4000_0000_0000_0000 && at < |binary|
    ensures Read(binary, U64(at), 1) == Some(binary[at] as nat)
  {
    assert binary[at..at + 1] == [binary[at]];
  }

  /** A value of the enum that is a table or a struct. */
  lemma UnionIsValid(c: Context, enumId: int, t: nat, target: nat, q: Place)
    requires UnionLink(c, enumId, t, target, q)
    ensures IsValidUnionValue(c.schema, enumId, t) && q.at == target
  {
  }

  lemma {:induction false} UnionsWent(c: Context, w: Walk, vector: nat, enumId: int, types: nat, length: nat, i: nat,
                                      offset: nat, added: seq<Region>, j: nat, q: Place)
    requires Tracked(c, w) && VTablesStand(c, w) && vector < |c.binary| && vector < offset
    ensures var p := UnionsFrom(c, w, vector, enumId, types, length, i, offset, added);
      && Went(c, vector, |w.arrivals|, w, p.w)
      && (i + j < length && UnionRead(c, types + i, offset, enumId, j, q) ==> Reaches(w, p.w, q))
    decreases |c.binary| - vector, 0, length - i
  {
    hide Tracked, VTablesStand, Went, Contains, Reaches, BuildUnion, Target, Leads, NonEmpty, OffsetRegion, Get,
      SchemaOk, UnionRead, UnionLink, IsValidUnionValue, Read, U64, Doomed;
    TrackedParts(c, w);
    TargetLeads(c.binary, offset);
    var isRead, more := i + j < length && UnionRead(c, types + i, offset, enumId, j, q), if j > 0 then j - 1 else 0;
    if isRead {
      UnionReadStep(c, types + i, offset, enumId, j, q);
    }
    var p, target := UnionsFrom(c, w, vector, enumId, types, length, i, offset, added), Target(c.binary, offset);
    if i < length && target.Some? {
      var region, realized := OffsetRegion(c.binary, offset), Read(c.binary, U64(types + i), 1);
      if !IsValidOffset(c.binary, target.value) {
        UnionsWent(c, w, vector, enumId, types, length, i + 1, offset, added + [region], more, q);
      } else if realized.None? {
        UnionsWent(c, w, vector, enumId, types, length, i + 1, offset, added + [Region(offset, 0, UnknownBytes, 0, 0)],
                   more, q);
      } else if !IsValidUnionValue(c.schema, enumId, realized.value) {
        if isRead && j == 0 {
          UnionIsValid(c, enumId, c.binary[types + i], target.value, q);
        }
        UnionsWent(c, w, vector, enumId, types, length, i + 1, offset + 4, added, more, q);
      } else {
        var w1 := BuildUnion(c, w, target.value, realized.value, enumId).w;
        UnionWent(c, vector, w, target.value, realized.value, enumId, q);
        WentGives(c, vector, |w.arrivals|, w, w1);
        UnionsWent(c, w1, vector, enumId, types, length, i + 1, offset + 4, added + [region], more, q);
        WentOn(c, vector, |w.arrivals|, w, w1, |w1.arrivals|, p.w);
        WentGives(c, vector, |w1.arrivals|, w1, p.w);
        NowOrLater(w, w1, p.w, isRead && j == 0, q);
        if isRead && j > 0 {
          ReachesOn(w, w1, p.w, p.w, q);
        }
      }
    } else {
      WentNowhere(c, vector, w);
    }
  }

  // ---- Structs begin with their first scalar ---------------------------------------------------

  /** The scalar at `at`, as one region. */
  function ScalarAt(at: nat, t: BaseType): Region {
    Region(at, GetTypeSize(t), GetRegionType(t), 0, 0)
  }

  lemma ScalarIsFirst(binary: seq<byte>, at: nat, t: BaseType)
    requires MIN_BUFFER_SIZE <= |binary| < 0x4000_0000_0000_0000 && IsScalar(t) && at + GetTypeSize(t) <= |binary|
    ensures ScalarPiece(binary, at, GetTypeSize(t), GetRegionType(t))
      == Piece([ScalarAt(at, t)], at + GetTypeSize(t))
    ensures IsValidRead(binary, at, GetTypeSize(t))
  {
    ScalarWidth(t);
  }

  /** The scalar that a struct's field begins with. */
  function FirstOf(c: Context, rank: nat, field: Field): BaseType
    requires SchemaOk(c.schema, c.ranks) && StructFieldOk(c.schema, c.ranks, rank, field)
  {
    if field.typ.base == Obj then FirstScalar(c, field.typ.index)
    else if field.typ.base != Arr then field.typ.base
    else if IsScalar(field.typ.element) then field.typ.element
    else FirstScalar(c, field.typ.index)
  }

  lemma {:induction false} FirstIsScalar(c: Context, index: nat)
    requires SchemaOk(c.schema, c.ranks) && IsStruct(c.schema, index)
    ensures IsScalar(FirstScalar(c, index))
    decreases c.ranks[index]
  {
    hide IsScalar;
    assert ObjectOk(c.schema, c.ranks, index);
    var f := c.schema.objects[index].fields[0];
    assert f in c.schema.objects[index].fields;
    if f.typ.base == Obj || (f.typ.base == Arr && !IsScalar(f.typ.element)) {
      FirstIsScalar(c, f.typ.index);
    }
  }

  lemma {:induction false} StructFirst(c: Context, at: nat, index: nat, k: nat)
    requires SchemaOk(c.schema, c.ranks) && MIN_BUFFER_SIZE <= |c.binary| < 0x4000_0000_0000_0000
    requires IsStruct(c.schema, index) && 0 < k <= |c.schema.objects[index].fields|
    requires at + GetTypeSize(FirstScalar(c, index)) <= |c.binary|
    ensures StructUpTo(c, at, index, k).added[0] == ScalarAt(at, FirstScalar(c, index))
    decreases c.ranks[index], 1, k
  {
    hide IsScalar, ScalarAt, GetTypeSize;
    assert ObjectOk(c.schema, c.ranks, index);
    var before, field := StructUpTo(c, at, index, k - 1), c.schema.objects[index].fields[k - 1];
    assert field in c.schema.objects[index].fields;
    if k == 1 {
      assert FirstOf(c, c.ranks[index], field) == FirstScalar(c, index);
      FieldFirst(c, at, c.ranks[index], field);
      assert before == Piece([], at);
      assert [] + StructField(c, at, c.ranks[index], field).added == StructField(c, at, c.ranks[index], field).added;
    } else {
      StructFirst(c, at, index, k - 1);
    }
  }

  lemma {:induction false} FieldFirst(c: Context, at: nat, rank: nat, field: Field)
    requires SchemaOk(c.schema, c.ranks) && MIN_BUFFER_SIZE <= |c.binary| < 0x4000_0000_0000_0000
    requires StructFieldOk(c.schema, c.ranks, rank, field)
    requires at + GetTypeSize(FirstOf(c, rank, field)) <= |c.binary|
    ensures StructField(c, at, rank, field).added[0] == ScalarAt(at, FirstOf(c, rank, field))
    decreases rank, 0, 1, 0
  {
    hide ScalarAt, IsScalar, ScalarPiece, GetTypeSize, GetRegionType;
    if IsScalar(field.typ.base) {
      ScalarIsNone(field.typ.base);
      ScalarIsFirst(c.binary, at, field.typ.base);
    } else if field.typ.base == Obj {
      BuildStructFirst(c, at, field.typ.index);
    } else {
      ArrayFirst(c, at, rank, field, field.typ.fixedLength);
    }
  }

  lemma ScalarIsNone(t: BaseType)
    ensures IsScalar(t) ==> t != Obj && t != Arr
  {
  }

  lemma {:induction false} BuildStructFirst(c: Context, at: nat, index: nat)
    requires SchemaOk(c.schema, c.ranks) && MIN_BUFFER_SIZE <= |c.binary| < 0x4000_0000_0000_0000
    requires IsStruct(c.schema, index) && at + GetTypeSize(FirstScalar(c, index)) <= |c.binary|
    ensures BuildStruct(c, at, index).added[0] == ScalarAt(at, FirstScalar(c, index))
    decreases c.ranks[index], 2
  {
    hide ScalarAt;
    assert ObjectOk(c.schema, c.ranks, index);
    StructFirst(c, at, index, |c.schema.objects[index].fields|);
  }

  lemma {:induction false} ArrayFirst(c: Context, at: nat, rank: nat, field: Field, k: nat)
    requires SchemaOk(c.schema, c.ranks) && MIN_BUFFER_SIZE <= |c.binary| < 0x4000_0000_0000_0000
    requires StructFieldOk(c.schema, c.ranks, rank, field) && field.typ.base == Arr && k > 0
    requires at + GetTypeSize(FirstOf(c, rank, field)) <= |c.binary|
    ensures ArrayUpTo(c, at, rank, field, k).0.added[0] == ScalarAt(at, FirstOf(c, rank, field))
    decreases rank, 0, 0, k
  {
    hide ScalarAt, IsScalar, ScalarPiece, GetTypeSize, GetRegionType, SchemaOk;
    if k > 1 {
      ArrayFirst(c, at, rank, field, k - 1);
    } else {
      assert ArrayUpTo(c, at, rank, field, 0) == (Piece([], at), true);
      var q := ArrayElement(c, at, rank, field).0;
      if IsScalar(field.typ.element) {
        ScalarIsFirst(c.binary, at, field.typ.element);
      } else {
        BuildStructFirst(c, at, field.typ.index);
      }
      assert [] + q.added == q.added && k - 1 == 0;
    }
  }

  // ---- Unions -----------------------------------------------------------------------------------

  lemma StructIsShown(c: Context, at: nat, index: nat)
    requires SchemaOk(c.schema, c.ranks) && MIN_BUFFER_SIZE <= |c.binary| < 0x4000_0000_0000_0000
    requires IsStruct(c.schema, index)
    ensures BuildStruct(c, at, index).added != []
    ensures ShowsStruct(c, Section(UnionSection, BuildStruct(c, at, index).added), at, index)
  {
    hide SchemaOk, FirstScalar, BuildStruct;
    if at + GetTypeSize(FirstScalar(c, index)) <= |c.binary| {
      BuildStructFirst(c, at, index);
      assert BuildStruct(c, at, index).added[0] in BuildStruct(c, at, index).added;
    }
  }

  lemma UnionIsOk(c: Context, enumId: int, t: nat)
    requires SchemaOk(c.schema, c.ranks) && IsValidUnionValue(c.schema, enumId, t)
    requires c.schema.enums[enumId][t].base == Obj
    ensures IsObject(c.schema, c.schema.enums[enumId][t].index)
  {
    hide ObjectOk;
  }

  lemma {:induction false} UnionWent(c: Context, floor: int, w: Walk, at: nat, realizedType: nat, enumId: int, q: Place)
    requires Tracked(c, w) && VTablesStand(c, w) && floor < at < |c.binary|
    requires IsValidUnionValue(c.schema, enumId, realizedType)
    ensures var p := BuildUnion(c, w, at, realizedType, enumId);
      && Went(c, floor, |w.arrivals|, w, p.w)
      && (UnionLink(c, enumId, realizedType, at, q) ==> Reaches(w, p.w, q))
    decreases |c.binary| - at, 7
  {
    hide Tracked, VTablesStand, Went, Contains, Reaches, BuildTable, BuildStruct, NonEmpty, SchemaOk, ShowsStruct,
      Doomed;
    TrackedParts(c, w);
    var t := c.schema.enums[enumId][realizedType];
    if t.base != Obj {
      WentNowhere(c, floor, w);
    } else {
      UnionIsOk(c, enumId, realizedType);
      if !c.schema.objects[t.index].isStruct {
        TableWent(c, floor, w, at, TableSection, t.index);
      } else if Contains(w.sections, at) {
        ArrivesAtContained(c, floor, w, StructPlace(at, t.index));
      } else {
        NotThere(w.sections, at);
        StructIsShown(c, at, t.index);
        ArrivesAndFiles(c, floor, w, StructPlace(at, t.index),
                        Section(UnionSection, BuildStruct(c, at, t.index).added));
      }
    }
  }

  /** Only the list of the vectors of unions changes. */
  lemma VisitOnly(c: Context, floor: int, lo: nat, w: Walk, w0: Walk, w1: Walk, q: Place)
    requires w0 == w.(visits := w0.visits)
    ensures VTablesStand(c, w) <==> VTablesStand(c, w0)
    ensures Went(c, floor, lo, w0, w1) <==> Went(c, floor, lo, w, w1)
    ensures Reaches(w0, w1, q) <==> Reaches(w, w1, q)
  {
    hide Law, FiledSince, ComesTo, SizesOf, Grows;
    assert forall k :: KnownAt(w, k) == KnownAt(w0, k);
    assert forall i: nat | i < |w1.arrivals| :: Between(c, floor, lo, w, w1, i) <==> Between(c, floor, lo, w0, w1, i);
  }

  /** What is known of element `j` by the word at `field` for the types. */
  predicate UnionTyped(c: Context, field: nat, start: nat, enumId: int, j: nat, q: Place) {
    field + 2 <= |c.binary| && UnionRead(c, TypeOf(c.binary, field, 0), start, enumId, j, q)
  }

  lemma WordReads(binary: seq<byte>, at: nat)
    requires MIN_BUFFER_SIZE <= |binary| < 0x4000_0000_0000_0000
    ensures at + 2 <= |binary| ==> Read(binary, at, 2) == Some(Get(binary, at, 2))
  {
    hide Get;
  }

  lemma {:induction false} TypedUnionsWent(c: Context, w: Walk, vector: nat, length: nat, enumId: int, entry: Entry,
                                           field: nat, start: nat, j: nat, q: Place)
    requires Tracked(c, w) && VTablesStand(c, w) && vector < |c.binary| && vector < start
    ensures var p := TypedUnions(c, w, vector, length, enumId, entry, field, start);
      && Went(c, vector, |w.arrivals|, w, p.w)
      && (entry.field.Some? && j < length && UnionTyped(c, field, start, enumId, j, q) ==> Reaches(w, p.w, q))
    decreases |c.binary| - vector, 1, 0
  {
    hide Tracked, VTablesStand, Went, Reaches, Read, NullUnions, UnionsFrom, UnionRead, NonEmpty, SchemaOk, Get, Doomed,
      Rest;
    TrackedParts(c, w);
    WordReads(c.binary, field);
    WentNowhere(c, vector, w);
    var relative := Read(c.binary, field, 2);
    if relative.Some? && entry.field.Some? {
      UnionsWent(c, w, vector, enumId, field + relative.value + 4, length, 0, start, [], j, q);
    }
  }

  /** The entry of a field that is present: it has the field, and its distance. */
  lemma EntryOfField(c: Context, at: nat, table: nat, v: VTable, id: nat)
    requires Walkable(c) && IsVTableOf(c, at, table, v) && FieldOffset(c, at, table, v.builder, id).Some?
    ensures id in v.fields && id < 0x1_0000
    ensures at + v.fields[id].offset == FieldOffset(c, at, table, v.builder, id).value
    ensures v.fields[id] == Entry(Some(id), v.fields[id].offset) && v.fields[id].offset > 0
  {
    hide SchemaOk, EntriesFor, KnownUpTo, Get, Expected;
    var lead := LeadOf(c.binary, at);
    EntryMeans(c, lead, table, v.builder, id);
    var distance := Get(c.binary, lead + 4 + 2 * id, 2);
    WordReads(c.binary, lead + 4 + 2 * id);
    assert U64(v.builder + distance - 1) == v.builder + distance - 1;
    assert !OutOfReach(c.binary, v.builder, distance);
    assert lead + 4 + id * 2 < lead + SizesOf(c.binary, lead).value.0;
    assert HasKnown(c.binary, lead, SizesOf(c.binary, lead).value.0, v.builder, id);
  }

  lemma UnionElementIsTyped(c: Context, start: nat, table: nat, id: nat, parent: nat, v: VTable, j: nat,
                            target: nat, q: Place)
    requires Walkable(c) && IsVTableOf(c, parent, table, v) && id < |FieldsOf(c, table)|
    requires Leads(c.binary, start + 4 * j) == Some(target)
    requires UnionElementLink(c, start, table, id, parent, v.builder, j, target, q)
    ensures TypeId(id) in v.fields && v.fields[TypeId(id)].field.Some?
    ensures UnionTyped(c, parent + v.fields[TypeId(id)].offset, start, FieldsOf(c, table)[id].typ.index, j, q)
  {
    hide IsVTableOf, Walkable, FieldOffset, UnionLink, Leads, Get;
    EntryOfField(c, parent, table, v, id - 1);
    var field := FieldOffset(c, parent, table, v.builder, id - 1).value;
    assert TypeOf(c.binary, field, 0) + j == TypeOf(c.binary, field, j);
    assert LeadInside(c.binary, start, j + 1);
  }

  lemma {:induction false} UnionVectorWent(c: Context, w: Walk, vector: nat, length: nat, table: nat, id: nat,
                                           parent: nat, v: VTable, j: nat, q: Place)
    requires IsUnionVector(c, vector, length, table, id) && Tracked(c, w) && IsVTableOf(c, parent, table, v)
    requires VTablesStand(c, w)
    ensures var p := UnionVector(c, w, vector, length, table, id, parent, v);
      && Went(c, vector, |w.arrivals|, w, p.w)
      && (ElementLink(c, vector, table, id, parent, v.builder, j, q) ==> Reaches(w, p.w, q))
    decreases |c.binary| - vector, 1, 1
  {
    hide Tracked, VTablesStand, Went, Reaches, TypedUnions, UnionTyped, NonEmpty, Doomed, IsVTableOf, TypeId, IsTable,
      Leads, UnionElementLink, Get, LengthSize, Fits, UnionLink;
    TrackedParts(c, w);
    TrackedIsWalkable(c, w);
    WentNowhere(c, vector, w);
    var t := FieldsOf(c, table)[id].typ;
    var start, isLink := vector + LengthSize(t), ElementLink(c, vector, table, id, parent, v.builder, j, q);
    LengthIs(c.binary, vector, t);
    if isLink {
      UnionElementIsTyped(c, start, table, id, parent, v, j, Leads(c.binary, start + 4 * j).value, q);
    }
    if TypeId(id) in v.fields {
      VisitContinues(c, w, vector, length, table, id, parent, v);
      var entry, w1 := v.fields[TypeId(id)], w.(visits := w.visits + [Visit(parent, table, id, vector, v.builder)]);
      var p := TypedUnions(c, w1, vector, length, t.index, entry, parent + entry.offset, start);
      VisitOnly(c, vector, |w.arrivals|, w, w1, p.w, q);
      TypedUnionsWent(c, w1, vector, length, t.index, entry, parent + entry.offset, start, j, q);
    }
  }

  lemma LengthIs(binary: seq<byte>, at: nat, t: Type)
    ensures LengthSize(t) == LengthBytes(t)
    ensures at + LengthBytes(t) <= |binary| ==> Word(binary, at, LengthSize(t)) == Get(binary, at, LengthBytes(t))
  {
  }

  lemma {:induction false} ObjectElementsWent(c: Context, w: Walk, vector: nat, start: nat, length: nat, index: nat,
                                              j: nat)
    requires Tracked(c, w) && VTablesStand(c, w) && vector < |c.binary| && vector < start && IsObject(c.schema, index)
    ensures var p := ObjectElements(c, w, vector, start, length, index);
      && Went(c, vector, |w.arrivals|, w, p.w)
      && (IsTable(c.schema, index) && j < length && Leads(c.binary, start + 4 * j).Some? ==>
           Reaches(w, p.w, TablePlace(Leads(c.binary, start + 4 * j).value, TableSection, index)))
    decreases |c.binary| - vector, 1, 0, 0
  {
    hide Tracked, VTablesStand, Went, Reaches, NonEmpty, Doomed, SchemaOk, StructsFrom, TablesFrom, Leads, Remembered;
    TrackedParts(c, w);
    WentNowhere(c, vector, w);
    if !c.schema.objects[index].isStruct {
      TablesWent(c, w, vector, index, length, 0, start, [], j);
    }
  }

  lemma {:induction false} ElementsWent(c: Context, w: Walk, vector: nat, length: nat, table: nat, id: nat,
                                        parent: nat, v: VTable, j: nat, q: Place)
    requires IsTable(c.schema, table) && vector < |c.binary|
    requires id < |FieldsOf(c, table)| && length == Word(c.binary, vector, LengthSize(FieldsOf(c, table)[id].typ))
    requires Tracked(c, w) && IsVTableOf(c, parent, table, v) && VTablesStand(c, w)
    ensures var p := Elements(c, w, vector, length, table, id, parent, v);
      && Went(c, vector, |w.arrivals|, w, p.w)
      && (ElementLink(c, vector, table, id, parent, v.builder, j, q) ==> Reaches(w, p.w, q))
    decreases |c.binary| - vector, 2
  {
    hide Tracked, VTablesStand, Went, Reaches, NonEmpty, Doomed, SchemaOk, Elements, ObjectElements, StringsFrom,
      UnionVector, ScalarsFrom, IsVTableOf, Leads, UnionElementLink, Fits, Get, IsScalar, LengthSize, Word, Continues;
    TrackedParts(c, w);
    WentNowhere(c, vector, w);
    ElementsByType(c, w, vector, length, table, id, parent, v);
    var t := FieldsOf(c, table)[id].typ;
    var start := vector + LengthSize(t);
    LengthIs(c.binary, vector, t);
    if t.element == Obj {
      ObjectElementsWent(c, w, vector, start, length, t.index, j);
    } else if t.element == Str {
      StringsWent(c, vector, w, length, 0, start, [], j);
    } else if t.element == Union {
      UnionVectorWent(c, w, vector, length, table, id, parent, v, j, q);
    }
  }

  // ---- Vectors ----------------------------------------------------------------------------------

  lemma Modulo(x: nat)
    requires x > 0
    ensures U64(U64(x) - 1) == (x - 1) % 0x1_0000_0000_0000_0000
  {
  }

  /** The check of a vector's last element, by words. */
  lemma InsideIsFits(c: Context, vector: nat, t: Type, length: nat)
    requires t.element == Obj ==> IsObject(c.schema, t.index)
    ensures ElementsInside(c, vector, t, length)
      <==> Fits(c.binary, vector + LengthBytes(t), length, GetElementSize(c.schema, t))
  {
    hide GetElementSize;
    Modulo(vector + LengthBytes(t) + length * GetElementSize(c.schema, t));
  }

  /** A vector whose elements are not inside leads nowhere. */
  lemma LinkFits(c: Context, vector: nat, table: nat, id: nat, parent: nat, builder: nat, j: nat, q: Place)
    requires ElementLink(c, vector, table, id, parent, builder, j, q) && SchemaOk(c.schema, c.ranks)
    ensures IsTable(c.schema, table) && id < |FieldsOf(c, table)|
    ensures var t := FieldsOf(c, table)[id].typ;
      && (t.element == Obj ==> IsObject(c.schema, t.index)) && vector + LengthBytes(t) <= |c.binary|
      && ElementsInside(c, vector, t, Get(c.binary, vector, LengthBytes(t)))
  {
    hide UnionElementLink, Get, Fits, ElementsInside, Leads, SchemaOk;
    ElementIsOk(c, table, id);
    var t := FieldsOf(c, table)[id].typ;
    InsideIsFits(c, vector, t, Get(c.binary, vector, LengthBytes(t)));
  }

  lemma LengthReads(binary: seq<byte>, at: nat, t: Type)
    requires MIN_BUFFER_SIZE <= |binary| < 0x4000_0000_0000_0000
    ensures at + LengthBytes(t) <= |binary| ==>
      Read(binary, at, LengthSize(t)) == Some(Get(binary, at, LengthBytes(t)))
    ensures Read(binary, at, LengthSize(t)).Some? ==> at + LengthBytes(t) <= |binary|
  {
    hide Get;
  }

  lemma {:induction false} ScalarsStay(binary: seq<byte>, t: BaseType, length: nat, i: nat, p: Piece, r: Region)
    requires r in p.added
    ensures r in ScalarsFrom(binary, t, length, i, p).added
    decreases length - i
  {
    hide ScalarsFrom, ScalarPiece, GetTypeSize, GetRegionType, IsValidRead;
    NextScalar(binary, t, length, i, p);
    if i < length {
      ScalarsStay(binary, t, length, i + 1, Join(p, ScalarPiece(binary, p.next, GetTypeSize(t), GetRegionType(t))), r);
    }
  }

  /** The place `j` steps further. */
  function StepsOn(at: nat, j: nat, size: nat): nat {
    at + j * size
  }

  lemma StepOn(at: nat, j: nat, size: nat)
    ensures StepsOn(at, 0, size) == at
    ensures j > 0 ==> StepsOn(at + size, j - 1, size) == StepsOn(at, j, size) && at + size <= StepsOn(at, j, size)
  {
    if j > 0 {
      assert j * size == size + (j - 1) * size;
    }
  }

  /** A vector of scalars that is inside the binary: one region for each, in a row. */
  lemma {:induction false} ScalarsAreShown(binary: seq<byte>, t: BaseType, length: nat, i: nat, p: Piece, j: nat)
    requires MIN_BUFFER_SIZE <= |binary| < 0x4000_0000_0000_0000 && IsScalar(t) && i + j < length
    requires StepsOn(p.next, length - i, GetTypeSize(t)) <= |binary|
    ensures ScalarAt(StepsOn(p.next, j, GetTypeSize(t)), t) in ScalarsFrom(binary, t, length, i, p).added
    decreases length - i
  {
    hide ScalarsFrom, ScalarPiece, GetTypeSize, GetRegionType, ScalarAt, IsScalar, StepsOn, IsValidRead, WidthOf;
    var size := GetTypeSize(t);
    NextScalar(binary, t, length, i, p);
    StepOn(p.next, length - i, size);
    StepOn(p.next, j, size);
    ScalarIsFirst(binary, p.next, t);
    var q := Join(p, ScalarPiece(binary, p.next, size, GetRegionType(t)));
    if j == 0 {
      assert ScalarAt(p.next, t) in q.added;
      ScalarsStay(binary, t, length, i + 1, q, ScalarAt(p.next, t));
    } else {
      ScalarsAreShown(binary, t, length, i + 1, q, j - 1);
    }
  }

  /** The section of a vector whose elements are inside the binary. */
  lemma VectorIsShown(c: Context, vector: nat, length: nat, t: Type, typ: SectionType, added: seq<Region>)
    requires MIN_BUFFER_SIZE <= |c.binary| < 0x4000_0000_0000_0000 && vector + LengthBytes(t) <= |c.binary|
    requires length == Get(c.binary, vector, LengthBytes(t)) && (typ == VectorSection || typ == Vector64Section)
    requires IsScalar(t.element) ==>
      added == ScalarsFrom(c.binary, t.element, length, 0, Piece([], vector + LengthBytes(t))).added
    ensures ShowsVector(c, Section(typ, [LengthRegion(t, vector)] + added), vector, t)
  {
    hide ScalarsFrom, Get, IsScalar, GetTypeSize, GetRegionType;
    var s, start, size := Section(typ, [LengthRegion(t, vector)] + added), vector + LengthBytes(t),
                          GetTypeSize(t.element);
    assert s.regions[0] == LengthRegion(t, vector) && LengthSize(t) == LengthBytes(t);
    if IsScalar(t.element) && start + length * size <= |c.binary| {
      forall j: nat | j < length
        ensures ShowsScalar(s, start + j * size, t.element)
      {
        ScalarsAreShown(c.binary, t.element, length, 0, Piece([], start), j);
        assert StepsOn(start, j, size) == start + j * size;
      }
    }
  }

  /** The length of a vector whose elements are not inside is all that is shown. */
  lemma BrokenIsShown(c: Context, vector: nat, t: Type, s: Section)
    requires MIN_BUFFER_SIZE <= |c.binary| < 0x4000_0000_0000_0000 && (t.element == Obj ==> IsObject(c.schema, t.index))
    requires s.typ == VectorSection
    requires vector + LengthBytes(t) <= |c.binary| ==>
      && s.regions == [LengthRegion(t, vector)]
      && !ElementsInside(c, vector, t, Get(c.binary, vector, LengthBytes(t)))
    ensures ShowsVector(c, s, vector, t)
  {
    hide ElementsInside, Get, GetElementSize, Fits, GetTypeSize, IsScalar, ShowsScalar;
    if vector + LengthBytes(t) <= |c.binary| {
      InsideIsFits(c, vector, t, Get(c.binary, vector, LengthBytes(t)));
      ScalarSize(c.schema, t);
      ReallyFits(c.binary, vector + LengthBytes(t), Get(c.binary, vector, LengthBytes(t)), GetTypeSize(t.element));
      assert LengthRegion(t, vector) in s.regions && LengthSize(t) == LengthBytes(t);
    }
  }

  /** Such a vector leads nowhere. */
  lemma BrokenVector(c: Context, w: Walk, vector: nat, table: nat, id: nat, parent: nat, builder: nat, s: Section,
                     m: Sections)
    requires IsTable(c.schema, table) && id < |FieldsOf(c, table)| && SchemaOk(c.schema, c.ranks)
    requires MIN_BUFFER_SIZE <= |c.binary| < 0x4000_0000_0000_0000 && NonEmpty(w.sections) && VTablesStand(c, w)
    requires var t := FieldsOf(c, table)[id].typ;
      && (t.element == Obj ==> IsObject(c.schema, t.index)) && s.typ == VectorSection
      && (vector + LengthBytes(t) <= |c.binary| ==>
           s.regions == [LengthRegion(t, vector)]
           && !ElementsInside(c, vector, t, Get(c.binary, vector, LengthBytes(t))))
    requires vector in m && m[vector] == s
    ensures Law(c, m, Arrive(w, VectorPlace(vector, table, id, parent, builder)).arrivals, |w.arrivals|)
  {
    hide Contains, ElementLink, ElementsInside, Get, SchemaOk, IsScalar, IsTable, VTablesStand, NonEmpty, ShowsVector,
      LengthRegion, Law;
    var t, arrivals := FieldsOf(c, table)[id].typ, Arrive(w, VectorPlace(vector, table, id, parent, builder)).arrivals;
    forall j: nat, q
      ensures !ElementLink(c, vector, table, id, parent, builder, j, q)
    {
      if ElementLink(c, vector, table, id, parent, builder, j, q) {
        LinkFits(c, vector, table, id, parent, builder, j, q);
        assert false;
      }
    }
    BrokenIsShown(c, vector, t, s);
    LawOfVector(c, m, arrivals, |w.arrivals|, vector, table, id, parent, builder);
  }

  lemma ScalarSize(s: Schema, t: Type)
    requires t.element == Obj ==> IsObject(s, t.index)
    ensures IsScalar(t.element) ==> GetElementSize(s, t) == GetTypeSize(t.element)
  {
  }

  lemma ReallyFits(binary: seq<byte>, start: nat, n: nat, size: nat)
    requires 0 < start && |binary| < 0x4000_0000_0000_0000
    ensures start + n * size <= |binary| ==> Fits(binary, start, n, size)
  {
    assert n * size >= 0;
  }

  /** What was not there before, and is not behind the place, is a vtable. */
  lemma TakenByVTable(c: Context, lo: nat, w: Walk, w1: Walk, at: nat)
    requires Went(c, at, lo, w, w1) && at !in w.sections && at in w1.sections
    ensures w1.sections[at].typ == VTableSection
  {
    hide Law, FiledSince, Grows;
  }

  /** A new vector is shown once its section is filed. */
  lemma FiledVector(c: Context, w0: Walk, w1: Walk, vector: nat, table: nat, id: nat, s: Section)
    requires Went(c, vector, |w0.arrivals|, w0, w1) && vector !in w0.sections
    requires IsTable(c.schema, table) && id < |FieldsOf(c, table)|
    requires ShowsVector(c, s, vector, FieldsOf(c, table)[id].typ)
    ensures VectorShown(c, AddTo(w1, vector, s).sections, vector, table, id)
  {
    hide Went, ShowsVector, IsTable;
    if vector in w1.sections {
      TakenByVTable(c, |w0.arrivals|, w0, w1, vector);
    }
  }

  /** All elements of a vector whose length is read. */
  lemma {:induction false} AllElementsWent(c: Context, w: Walk, vector: nat, length: nat, table: nat, id: nat,
                                           parent: nat, v: VTable)
    requires IsTable(c.schema, table) && vector < |c.binary|
    requires id < |FieldsOf(c, table)| && length == Word(c.binary, vector, LengthSize(FieldsOf(c, table)[id].typ))
    requires Tracked(c, w) && IsVTableOf(c, parent, table, v) && VTablesStand(c, w) && w.arrivals != []
    ensures var p := Elements(c, w, vector, length, table, id, parent, v);
      && Went(c, vector, |w.arrivals|, w, p.w)
      && ElementsFollowed(c, p.w.arrivals, |w.arrivals| - 1, vector, table, id, parent, v.builder)
    decreases |c.binary| - vector, 3, 0
  {
    hide Tracked, VTablesStand, Went, NonEmpty, Doomed, SchemaOk, Elements, IsVTableOf, ElementLink, Word, LengthSize,
      ComesTo, Continues, IsTable;
    var p := Elements(c, w, vector, length, table, id, parent, v);
    ElementsWent(c, w, vector, length, table, id, parent, v, 0, StringPlace(0));
    forall j: nat, q | ElementLink(c, vector, table, id, parent, v.builder, j, q)
      ensures ComesTo(p.w.arrivals, |w.arrivals| - 1, q)
    {
      ElementsWent(c, w, vector, length, table, id, parent, v, j, q);
    }
  }

  /** The vector's own section is filed when its elements have been followed. */
  lemma FilesVector(c: Context, floor: int, w: Walk, vector: nat, table: nat, id: nat, parent: nat, builder: nat,
                    w1: Walk, s: Section)
    requires IsTable(c.schema, table) && id < |FieldsOf(c, table)| && floor < vector
    requires VTablesStand(c, w) && NonEmpty(w.sections) && !Contains(w.sections, vector)
    requires var w0 := Arrive(w, VectorPlace(vector, table, id, parent, builder));
      Went(c, vector, |w0.arrivals|, w0, w1)
    requires ElementsFollowed(c, w1.arrivals, |w.arrivals|, vector, table, id, parent, builder)
    requires ShowsVector(c, s, vector, FieldsOf(c, table)[id].typ) && s.regions != []
    ensures Went(c, floor, |w.arrivals|, w, AddTo(w1, vector, s))
    ensures Reaches(w, AddTo(w1, vector, s), VectorPlace(vector, table, id, parent, builder))
  {
    hide VTablesStand, Went, Reaches, NonEmpty, ElementsFollowed, Contains, IsTable, Law, VectorShown, IsScalar, Get;
    var place, lo := VectorPlace(vector, table, id, parent, builder), |w.arrivals|;
    var w0, w2 := Arrive(w, place), AddTo(w1, vector, s);
    NotThere(w.sections, vector);
    ArriveStays(c, w, place);
    FiledVector(c, w0, w1, vector, table, id, s);
    WentGives(c, vector, |w0.arrivals|, w0, w1);
    WentLower(c, vector, |w0.arrivals|, w0, w1, floor, lo);
    assert w1.arrivals[lo] == Arrival(place, w.sections);
    FilesFor(c, floor, lo, w1, vector, s);
    WentOn(c, floor, lo, w0, w1, lo, w2);
    LawOfVector(c, w2.sections, w2.arrivals, lo, vector, table, id, parent, builder);
    ArrivalCloses(c, floor, w, place, w2);
  }

  /** A vector whose elements are inside the binary. */
  lemma {:induction false} FilledVectorWent(c: Context, floor: int, w: Walk, vector: nat, length: nat, table: nat,
                                            id: nat, parent: nat, v: VTable)
    requires IsTable(c.schema, table) && floor < vector < |c.binary| && id < |FieldsOf(c, table)|
    requires Read(c.binary, vector, LengthSize(FieldsOf(c, table)[id].typ)) == Some(length)
    requires Tracked(c, w) && IsVTableOf(c, parent, table, v) && VTablesStand(c, w) && !ContainsIn(w, vector)
    requires Tracked(c, Arrive(w, VectorPlace(vector, table, id, parent, v.builder)))
    ensures length == Word(c.binary, vector, LengthSize(FieldsOf(c, table)[id].typ))
    ensures var w0 := Arrive(w, VectorPlace(vector, table, id, parent, v.builder));
      var p := FillVector(c, w0, vector, length, table, id, parent, v);
      && Went(c, floor, |w.arrivals|, w, p.w)
      && Reaches(w, p.w, VectorPlace(vector, table, id, parent, v.builder))
    decreases |c.binary| - vector, 3, 1
  {
    hide Tracked, VTablesStand, Went, Reaches, NonEmpty, Doomed, SchemaOk, Elements, IsVTableOf, ElementsFollowed, Get,
      Contains, ShowsVector, Continues, IsTable, Read, LengthSize, Law, LengthRegion, ScalarsFrom;
    var t, place := FieldsOf(c, table)[id].typ, VectorPlace(vector, table, id, parent, v.builder);
    var w0 := Arrive(w, place);
    TrackedParts(c, w);
    ArriveStays(c, w, place);
    LengthIs(c.binary, vector, t);
    LengthReads(c.binary, vector, t);
    var p := Elements(c, w0, vector, length, table, id, parent, v);
    AllElementsWent(c, w0, vector, length, table, id, parent, v);
    ElementsByType(c, w0, vector, length, table, id, parent, v);
    var s := Section(if t.base == Vec64 then Vector64Section else VectorSection, [LengthRegion(t, vector)] + p.added);
    VectorIsShown(c, vector, length, t, s.typ, p.added);
    FilesVector(c, floor, w, vector, table, id, parent, v.builder, p.w, s);
  }

  /** Whether a section of the walk contains the place. */
  ghost predicate ContainsIn(w: Walk, at: nat) {
    NonEmpty(w.sections) && Contains(w.sections, at)
  }

  lemma LawOfVector(c: Context, m: Sections, arrivals: seq<Arrival>, i: nat, at: nat, table: nat, id: nat, parent: nat,
                    builder: nat)
    requires i < |arrivals| && arrivals[i].place == VectorPlace(at, table, id, parent, builder)
    requires NonEmpty(arrivals[i].before) && VectorShown(c, m, at, table, id)
    requires ElementsFollowed(c, arrivals, i, at, table, id, parent, builder)
    ensures Law(c, m, arrivals, i)
  {
    hide Contains, VectorShown, ElementsFollowed, NonEmpty;
  }

  lemma {:induction false} VectorWent(c: Context, floor: int, w: Walk, vector: nat, table: nat, id: nat, parent: nat,
                                      v: VTable)
    requires IsTable(c.schema, table) && floor < vector < |c.binary| && id < |FieldsOf(c, table)|
    requires Tracked(c, w) && IsVTableOf(c, parent, table, v) && VTablesStand(c, w)
    ensures var p := BuildVector(c, w, vector, table, id, parent, v);
      && Went(c, floor, |w.arrivals|, w, p.w)
      && Reaches(w, p.w, VectorPlace(vector, table, id, parent, v.builder))
    decreases |c.binary| - vector, 4
  {
    hide Tracked, VTablesStand, Went, Reaches, NonEmpty, Doomed, SchemaOk, FillVector, IsVTableOf, Get, Contains,
      Continues, IsTable, Read, LengthSize, Law, LengthRegion, ElementsInside, Rest;
    var t, place := FieldsOf(c, table)[id].typ, VectorPlace(vector, table, id, parent, v.builder);
    TrackedParts(c, w);
    FieldIsOk(c, table, id);
    ArrivesContinues(c, w, place);
    if Contains(w.sections, vector) {
      ArrivesAtContained(c, floor, w, place);
    } else {
      NotThere(w.sections, vector);
      LengthReads(c.binary, vector, t);
      LengthIs(c.binary, vector, t);
      var w0, length := Arrive(w, place), Read(c.binary, vector, LengthSize(t));
      if length.Some? && ElementsInside(c, vector, t, length.value) {
        FilledVectorWent(c, floor, w, vector, length.value, table, id, parent, v);
      } else {
        var s := Section(VectorSection, if length.None? then [Rest(c.binary, vector)] else [LengthRegion(t, vector)]);
        BrokenVector(c, w, vector, table, id, parent, v.builder, s, AddTo(w0, vector, s).sections);
        ArrivesAndFiles(c, floor, w, place, s);
      }
    }
  }

  // ---- Tables -----------------------------------------------------------------------------------

  /** Field `id` is the one at `field`, and leads to `q`. */
  predicate LinkFrom(c: Context, at: nat, table: nat, v: VTable, field: nat, id: nat, q: Place) {
    FieldOffset(c, at, table, v.builder, id) == Some(field) && FieldLink(c, at, table, v.builder, id, q)
  }

  /** The type of a union field makes the place `q` of it. */
  predicate HasType(c: Context, at: nat, union: nat, id: nat, enumId: int, fields: map<nat, Entry>, q: Place) {
    && TypeId(id) in fields && at + fields[TypeId(id)].offset < |c.binary|
    && UnionLink(c, enumId, c.binary[at + fields[TypeId(id)].offset], union, q)
  }

  lemma {:induction false} UnionFieldWent(c: Context, w: Walk, at: nat, word: Region, union: nat, id: nat, enumId: int,
                                          fields: map<nat, Entry>, q: Place)
    requires Tracked(c, w) && VTablesStand(c, w) && at < union < |c.binary|
    ensures var p := UnionField(c, w, at, word, union, id, enumId, fields);
      && Went(c, at, |w.arrivals|, w, p.w)
      && (HasType(c, at, union, id, enumId, fields, q) ==> Reaches(w, p.w, q))
    decreases |c.binary| - at, 1
  {
    hide Tracked, VTablesStand, Went, Reaches, NonEmpty, Doomed, SchemaOk, Read, IsValidUnionValue, UnionLink, TypeId,
      BuildUnion, Rest;
    TrackedParts(c, w);
    WentNowhere(c, at, w);
    if TypeId(id) in fields {
      var typeOffset := at + fields[TypeId(id)].offset;
      if typeOffset < |c.binary| {
        OneByte(c.binary, typeOffset);
        assert U64(typeOffset) == typeOffset;
        if UnionLink(c, enumId, c.binary[typeOffset], union, q) {
          UnionIsValid(c, enumId, c.binary[typeOffset], union, q);
        }
      }
      var realized := Read(c.binary, typeOffset, 1);
      if realized.Some? && IsValidUnionValue(c.schema, enumId, realized.value) {
        UnionWent(c, at, w, union, realized.value, enumId, q);
      }
    }
  }

  /** The union's type is the byte that the field before it leads to. */
  lemma UnionFieldIsTyped(c: Context, at: nat, table: nat, v: VTable, field: nat, id: nat, q: Place)
    requires Walkable(c) && IsVTableOf(c, at, table, v) && LinkFrom(c, at, table, v, field, id, q)
    requires FieldsOf(c, table)[id].typ.base == Union && Leads(c.binary, field).Some?
    ensures HasType(c, at, Leads(c.binary, field).value, id, FieldsOf(c, table)[id].typ.index, v.fields, q)
  {
    hide IsVTableOf, Walkable, FieldOffset, UnionLink, Leads, IsTable;
    EntryOfField(c, at, table, v, id - 1);
  }

  /** What a link says without unions. */
  lemma LinkIs(c: Context, at: nat, table: nat, v: VTable, field: nat, id: nat, q: Place)
    requires LinkFrom(c, at, table, v, field, id, q) && IsTable(c.schema, table) && id < |FieldsOf(c, table)|
    ensures Leads(c.binary, field).Some? && Leads(c.binary, field).value != field
    ensures var t, target := FieldsOf(c, table)[id].typ, Leads(c.binary, field).value;
      && (t.base == Obj ==> IsTable(c.schema, t.index) && q == TablePlace(target, TableSection, t.index))
      && (t.base == Str ==> q == StringPlace(target))
      && (t.base == Vec || t.base == Vec64 ==> q == VectorPlace(target, table, id, at, v.builder))
      && (t.base == Obj || t.base == Str || t.base == Vec || t.base == Vec64 || t.base == Union)
  {
    hide FieldOffset, Leads, UnionLink;
  }

  lemma {:induction false} FollowWent(c: Context, w: Walk, at: nat, field: nat, word: Region, table: nat, id: nat,
                                      v: VTable, q: Place)
    requires IsTable(c.schema, table) && at < word.pointsTo < |c.binary|
    requires id < |FieldsOf(c, table)| && !IsScalar(FieldsOf(c, table)[id].typ.base)
    requires FieldsOf(c, table)[id].typ.base == Obj ==> IsTable(c.schema, FieldsOf(c, table)[id].typ.index)
    requires Tracked(c, w) && IsVTableOf(c, at, table, v) && VTablesStand(c, w)
    requires Leads(c.binary, field) == Some(word.pointsTo)
    ensures var p := FollowField(c, w, at, word, table, id, v);
      Went(c, at, |w.arrivals|, w, p.w) && (LinkFrom(c, at, table, v, field, id, q) ==> Reaches(w, p.w, q))
    decreases |c.binary| - at, 2, 0
  {
    hide Tracked, VTablesStand, Went, Reaches, NonEmpty, Doomed, SchemaOk, IsVTableOf, BuildTable, BuildVector,
      BuildString, UnionField, LinkFrom, Leads, UnionLink, TypeId, IsScalar;
    TrackedParts(c, w);
    TrackedIsWalkable(c, w);
    WentNowhere(c, at, w);
    var t, isLink := FieldsOf(c, table)[id].typ, LinkFrom(c, at, table, v, field, id, q);
    if isLink {
      LinkIs(c, at, table, v, field, id, q);
    }
    match t.base
    case Obj => TableWent(c, at, w, word.pointsTo, TableSection, t.index);
    case Str => StringWent(c, at, w, word.pointsTo);
    case Vec => VectorWent(c, at, w, word.pointsTo, table, id, at, v);
    case Vec64 => VectorWent(c, at, w, word.pointsTo, table, id, at, v);
    case Union =>
      if isLink {
        UnionFieldIsTyped(c, at, table, v, field, id, q);
      }
      UnionFieldWent(c, w, at, word, word.pointsTo, id, t.index, v.fields, q);
    case _ =>
  }

  lemma WordsRead(binary: seq<byte>, at: nat)
    requires MIN_BUFFER_SIZE <= |binary| < 0x4000_0000_0000_0000
    ensures at + 4 <= |binary| ==> Read(binary, at, 4) == Some(Get(binary, at, 4))
    ensures at + 4 > |binary| ==> Read(binary, at, 4).None?
    ensures Leads(binary, at) ==
      if Read(binary, at, 4).Some? && at + Read(binary, at, 4).value < |binary|
      then Some(at + Read(binary, at, 4).value) else None
  {
    hide Get;
  }

  lemma {:induction false} OffsetFieldWent(c: Context, w: Walk, at: nat, field: nat, table: nat, id: nat, v: VTable,
                                           q: Place)
    requires IsTable(c.schema, table) && at < field < |c.binary|
    requires id < |FieldsOf(c, table)| && !IsScalar(FieldsOf(c, table)[id].typ.base)
    requires Tracked(c, w) && IsVTableOf(c, at, table, v) && VTablesStand(c, w)
    ensures var p := OffsetField(c, w, at, field, table, id, v);
      Went(c, at, |w.arrivals|, w, p.w) && (LinkFrom(c, at, table, v, field, id, q) ==> Reaches(w, p.w, q))
    decreases |c.binary| - at, 2, 1
  {
    hide Tracked, VTablesStand, Went, Reaches, NonEmpty, Doomed, SchemaOk, IsVTableOf, FollowField, LinkFrom, Leads,
      IsScalar, Read, BuildStruct, Rest, Get;
    TrackedParts(c, w);
    WentNowhere(c, at, w);
    FieldIsOk(c, table, id);
    WordsRead(c.binary, field);
    var t, relative, isLink := FieldsOf(c, table)[id].typ, Read(c.binary, field, 4),
                               LinkFrom(c, at, table, v, field, id, q);
    if isLink {
      LinkIs(c, at, table, v, field, id, q);
    }
    if !IsInlineField(c.schema, t) && relative.Some? && relative.value != 0 && field + relative.value < |c.binary| {
      FollowWent(c, w, at, field, Region(field, 4, UOffset, 0, field + relative.value), table, id, v, q);
    }
  }

  lemma ScalarLeadsNowhere(c: Context, at: nat, table: nat, v: VTable, field: nat, id: nat, q: Place)
    requires LinkFrom(c, at, table, v, field, id, q)
    ensures IsTable(c.schema, table) && id < |FieldsOf(c, table)| && !IsScalar(FieldsOf(c, table)[id].typ.base)
  {
    hide UnionLink, Leads;
  }

  lemma {:induction false} TableFieldWent(c: Context, w: Walk, at: nat, end: nat, table: nat, v: VTable, entry: Entry,
                                          next: Option<nat>, id: nat, q: Place)
    requires IsTable(c.schema, table) && at < |c.binary|
    requires entry.field.Some? ==> entry.field.value < |FieldsOf(c, table)|
    requires Tracked(c, w) && IsVTableOf(c, at, table, v) && VTablesStand(c, w)
    ensures var p := TableField(c, w, at, end, table, v, entry, next);
      && Went(c, at, |w.arrivals|, w, p.w)
      && (entry.offset > 0 && entry.field == Some(id) && LinkFrom(c, at, table, v, at + entry.offset, id, q) ==>
           Reaches(w, p.w, q))
    decreases |c.binary| - at, 3
  {
    hide Tracked, VTablesStand, Went, Reaches, NonEmpty, Doomed, SchemaOk, IsVTableOf, OffsetField, LinkFrom, IsScalar,
      ScalarPiece, UnknownField, GetTypeSize, GetRegionType, Leads;
    TrackedParts(c, w);
    WentNowhere(c, at, w);
    var field := at + entry.offset;
    if entry.field == Some(id) && LinkFrom(c, at, table, v, field, id, q) {
      ScalarLeadsNowhere(c, at, table, v, field, id, q);
      LinkIs(c, at, table, v, field, id, q);
      LeadsThere(c.binary, field, Leads(c.binary, field).value);
    }
    if entry.offset > 0 && field < |c.binary| && entry.field.Some?
       && !IsScalar(FieldsOf(c, table)[entry.field.value].typ.base) {
      OffsetFieldWent(c, w, at, field, table, entry.field.value, v, q);
    }
  }

  /** Entry number `k` is that of field `id`, which leads to `q`. */
  predicate EntryLinks(c: Context, at: nat, table: nat, v: VTable, fields: seq<Entry>, k: nat, id: nat, q: Place) {
    && k < |fields| && fields[k].offset > 0 && fields[k].field == Some(id)
    && LinkFrom(c, at, table, v, at + fields[k].offset, id, q)
  }

  lemma {:induction false} TableFieldsWent(c: Context, w: Walk, at: nat, end: nat, table: nat, v: VTable,
                                           fields: seq<Entry>, i: nat, added: seq<Region>, k: nat, id: nat, q: Place)
    requires at < |c.binary| && i <= |fields| && i <= k && IsTable(c.schema, table) && FieldsInSchema(c, table, fields)
    requires Tracked(c, w) && IsVTableOf(c, at, table, v) && VTablesStand(c, w)
    ensures var p := TableFieldsFrom(c, w, at, end, table, v, fields, i, added);
      && Went(c, at, |w.arrivals|, w, p.w)
      && (EntryLinks(c, at, table, v, fields, k, id, q) ==> Reaches(w, p.w, q))
    decreases |c.binary| - at, 4, |fields| - i
  {
    hide Tracked, VTablesStand, Went, Reaches, NonEmpty, Doomed, SchemaOk, IsVTableOf, TableField, LinkFrom, IsTable;
    TrackedParts(c, w);
    if i == |fields| {
      WentNowhere(c, at, w);
    } else {
      assert fields[i] in fields;
      var next := if i + 1 < |fields| then Some(fields[i + 1].offset) else None;
      var p := TableField(c, w, at, end, table, v, fields[i], next);
      var r := TableFieldsFrom(c, p.w, at, end, table, v, fields, i + 1, added + p.added);
      TableFieldWent(c, w, at, end, table, v, fields[i], next, id, q);
      WentGives(c, at, |w.arrivals|, w, p.w);
      TableFieldsWent(c, p.w, at, end, table, v, fields, i + 1, added + p.added, if k > i then k else i + 1, id, q);
      WentGives(c, at, |p.w.arrivals|, p.w, r.w);
      WentOn(c, at, |w.arrivals|, w, p.w, |p.w.arrivals|, r.w);
      var isLink := EntryLinks(c, at, table, v, fields, k, id, q);
      NowOrLater(w, p.w, r.w, isLink && k == i, q);
      if isLink && k > i {
        ReachesOn(w, p.w, r.w, r.w, q);
      }
    }
  }

  /** A new vtable's section, or none. */
  lemma VTableFiles(c: Context, floor: int, lo: nat, w: Walk, w1: Walk, lead: nat)
    requires NonEmpty(w.sections) && VTablesStand(c, w) && w1.arrivals == w.arrivals && NonEmpty(w1.sections)
    requires lo < |w.arrivals| && FiledFor(c.binary, w.arrivals[lo], lead)
    requires forall k | k in w1.sections && k != lead :: k in w.sections && KnownAt(w1, k) == KnownAt(w, k)
    requires Grows(w.sections, w1.sections)
    requires lead in w1.sections && lead !in w.sections ==>
      w1.sections[lead].typ == VTableSection && (KnownAt(w1, lead) != [] || SizesOf(c.binary, lead).None?)
    requires KnownAt(w, lead) != [] ==> KnownAt(w1, lead) != []
    ensures Went(c, floor, lo, w, w1)
  {
    hide Law, FiledFor, SizesOf, KnownAt;
    assert FiledSince(c.binary, w1.arrivals, lo, |w1.arrivals|, lead);
    forall k | k in w1.sections && w1.sections[k].typ == VTableSection
      ensures KnownAt(w1, k) != [] || SizesOf(c.binary, k).None?
    {
      if k in w.sections {
        assert w1.sections[k] == w.sections[k];
      }
    }
  }

  lemma WholeIsSized(binary: seq<byte>, lead: nat)
    requires MIN_BUFFER_SIZE <= |binary| < 0x4000_0000_0000_0000
    ensures WholeVTable(binary, lead) ==> SizesOf(binary, lead).Some?
  {
    hide Get;
    Widths();
  }

  /** The vtable of the table that the last arrival is. */
  lemma VTableWent(c: Context, floor: int, lo: nat, w: Walk, at: nat, table: nat)
    requires Tracked(c, w) && VTablesStand(c, w) && IsTable(c.schema, table) && at + 4 <= |c.binary|
    requires lo < |w.arrivals| && FiledFor(c.binary, w.arrivals[lo], LeadOf(c.binary, at))
    ensures var f := GetOrBuildVTable(c, w, LeadOf(c.binary, at), table, at);
      && Went(c, floor, lo, w, f.w) && f.w.arrivals == w.arrivals
      && (forall k | k in f.w.sections && k !in w.sections :: f.w.sections[k].typ == VTableSection)
      && (NonEmpty(w.sections) && HasVTable(c.binary, w.sections, at) ==> f.vtable.Some?)
  {
    hide Tracked, Contains, Doomed, SchemaOk, Remembered, SizesOf, LeadOf, MakeVTable, EntriesFor, FiledFor, Went,
      WholeVTable, IsTable, Lookup;
    TrackedParts(c, w);
    var lead := LeadOf(c.binary, at);
    WholeIsSized(c.binary, lead);
    KnownIsRemembered(c, w, lead);
    FiledKeepsTracked(c, w, lead, KnownAt(w, lead), w.sections);
    var w1 := w.(vtables := w.vtables[lead := KnownAt(w, lead)], sections := w.sections);
    var f := GetOrBuildVTable(c, w, lead, table, at);
    assert KnownAt(w1, lead) == KnownAt(w, lead);
    if KnownAt(w, lead) == [] && !Contains(w.sections, lead) {
      NotThere(w.sections, lead);
    }
    TrackedParts(c, f.w);
    VTableFiles(c, floor, lo, w, f.w, lead);
  }

  /** What the walk does when it enters a table. */
  lemma EnterWent(c: Context, floor: int, w: Walk, at: nat, typ: SectionType, table: nat)
    requires Tracked(c, w) && VTablesStand(c, w) && IsTable(c.schema, table) && floor < at < |c.binary|
    requires (typ == TableSection || typ == RootTable) && NonEmpty(w.sections) && !Contains(w.sections, at)
    ensures var w0, f := Arrive(w, TablePlace(at, typ, table)), EnterTable(c, w, at, typ, table);
      && Went(c, floor, |w.arrivals|, w0, f.w) && f.w.arrivals == w0.arrivals
      && (f.vtable.None? ==> !HasVTable(c.binary, w.sections, at))
      && (f.vtable.Some? && at in f.w.sections ==> f.w.sections[at].typ == VTableSection)
  {
    hide Tracked, Contains, Doomed, SchemaOk, GetOrBuildVTable, LeadOf, Went, IsTable, VTablesStand, Get, HeadRegion,
      IsVTableOf, WholeVTable;
    TrackedParts(c, w);
    var place, lo := TablePlace(at, typ, table), |w.arrivals|;
    var w0 := Arrive(w, place);
    ArrivesContinues(c, w, place);
    ArriveStays(c, w, place);
    NotThere(w.sections, at);
    WordsRead(c.binary, at);
    assert w0.arrivals[lo] == Arrival(place, w.sections);
    var f := EnterTable(c, w, at, typ, table);
    assert f == FindVTable(c, w0, at, typ, table);
    if at + 4 <= |c.binary| && LeadOf(c.binary, at) < |c.binary| {
      VTableWent(c, floor, lo, w0, at, table);
    } else {
      FilesFor(c, floor, lo, w0, at, Section(typ, [HeadRegion(c.binary, at)]));
      OutsideIsNot(c.binary, w.sections, at);
    }
  }

  lemma OutsideIsNot(binary: seq<byte>, m: Sections, at: nat)
    requires NonEmpty(m) && (at + 4 > |binary| || LeadOf(binary, at) >= |binary|)
    ensures !HasVTable(binary, m, at)
  {
  }

  /** Every entry of a vtable is in the list that the loop goes through. */
  lemma EntryIsListed(c: Context, at: nat, table: nat, v: VTable, id: nat) returns (k: nat)
    requires IsVTableOf(c, at, table, v) && id in v.fields && id < ID_LIMIT
    ensures k < |SortedEntries(v.fields)| && SortedEntries(v.fields)[k] == v.fields[id]
  {
    hide SchemaOk, EntriesFor, StableSort, Listed, IsVTableOf;
    var list := Listed(v.fields, ID_LIMIT);
    StableSortSorts(list, ByDistance());
    assert v.fields[id] in list;
    assert v.fields[id] in multiset(list) && v.fields[id] in multiset(SortedEntries(v.fields));
    k :| 0 <= k < |SortedEntries(v.fields)| && SortedEntries(v.fields)[k] == v.fields[id];
  }

  /** All fields of a table, from the walk that has just entered it. */
  lemma {:induction false} AllFieldsWent(c: Context, w: Walk, at: nat, table: nat, v: VTable)
    requires at < |c.binary| && IsTable(c.schema, table) && Tracked(c, w) && IsVTableOf(c, at, table, v)
    requires VTablesStand(c, w) && w.arrivals != []
    ensures var p := AfterFields(c, w, at, table, v);
      && Went(c, at, |w.arrivals|, w, p.w)
      && FieldsFollowed(c, p.w.arrivals, |w.arrivals| - 1, at, table, v.builder)
    decreases |c.binary| - at, 5, 0
  {
    hide Tracked, VTablesStand, Went, NonEmpty, Doomed, IsVTableOf, TableFieldsFrom, SortedEntries, FieldsInSchema,
      TableEnd, FieldOffset, ComesTo, Leads, UnionLink, IsTable, Walkable;
    TrackedIsWalkable(c, w);
    SortedInSchema(c, at, table, v);
    var fields, end := SortedEntries(v.fields), TableEnd(c.binary, at, v);
    var p := AfterFields(c, w, at, table, v);
    assert p == TableFieldsFrom(c, w, at, end, table, v, fields, 0, []);
    TableFieldsWent(c, w, at, end, table, v, fields, 0, [], 0, 0, StringPlace(0));
    forall id: nat, q | FieldLink(c, at, table, v.builder, id, q)
      ensures ComesTo(p.w.arrivals, |w.arrivals| - 1, q)
    {
      EntryOfField(c, at, table, v, id);
      var k := EntryIsListed(c, at, table, v, id);
      TableFieldsWent(c, w, at, end, table, v, fields, 0, [], k, id, q);
    }
  }

  /** The table's section at the end. */
  lemma TableIsThere(c: Context, w: Walk, at: nat, typ: SectionType, table: nat, v: VTable)
    requires at < |c.binary| && IsTable(c.schema, table)
    requires Tracked(c, w) && NonEmpty(w.sections) && !Contains(w.sections, at)
    requires EnterTable(c, w, at, typ, table).vtable == Some(v)
    requires var walked := AfterFields(c, EnterTable(c, w, at, typ, table).w, at, table, v).w.sections;
      at in walked ==> walked[at].typ == VTableSection
    ensures ShowsTableAt(c, BuildTable(c, w, at, typ, table).w.sections, at, typ, table, v.builder)
  {
    hide Tracked, Contains, Doomed, EnterTable, AfterFields, ShowsTable, SortedEntries, NonEmpty, Went, SchemaOk,
      EntriesFor, HeadRegion, ShownAt, BuildTable;
    TrackedParts(c, w);
    Shares(c, at, table, v);
    TableIsShown(c, w, at, typ, table, v, 0);
    var walked := AfterFields(c, EnterTable(c, w, at, typ, table).w, at, table, v).w.sections;
    if at in walked {
      TakenStays(c, w, at, typ, table, v);
    } else {
      SectionShows(c, w, at, typ, table, v);
    }
  }

  lemma TakenStays(c: Context, w: Walk, at: nat, typ: SectionType, table: nat, v: VTable)
    requires at < |c.binary| && IsTable(c.schema, table)
    requires Tracked(c, w) && NonEmpty(w.sections) && !Contains(w.sections, at)
    requires EnterTable(c, w, at, typ, table).vtable == Some(v)
    requires at in AfterFields(c, EnterTable(c, w, at, typ, table).w, at, table, v).w.sections
    ensures BuildTable(c, w, at, typ, table).w.sections
      == AfterFields(c, EnterTable(c, w, at, typ, table).w, at, table, v).w.sections
  {
    hide Tracked, Contains, Doomed, EnterTable, TableFieldsFrom, SortedEntries, NonEmpty, SchemaOk, HeadRegion,
      IsVTableOf;
  }

  lemma LawOfTable(c: Context, m: Sections, arrivals: seq<Arrival>, i: nat, at: nat, typ: SectionType, table: nat,
                   builder: nat)
    requires i < |arrivals| && arrivals[i].place == TablePlace(at, typ, table) && NonEmpty(arrivals[i].before)
    requires !HasVTable(c.binary, arrivals[i].before, at) || Opened(c, m, arrivals, i, at, typ, table, builder)
    ensures Law(c, m, arrivals, i)
  {
    hide Contains, HasVTable, Opened, NonEmpty;
  }

  /** A table whose vtable is found, with all its fields. */
  lemma {:induction false} OpenedTableWent(c: Context, floor: int, w: Walk, at: nat, typ: SectionType, table: nat,
                                           v: VTable)
    requires Tracked(c, w) && VTablesStand(c, w) && IsTable(c.schema, table) && floor < at < |c.binary|
    requires (typ == TableSection || typ == RootTable) && NonEmpty(w.sections) && !Contains(w.sections, at)
    requires EnterTable(c, w, at, typ, table).vtable == Some(v)
    ensures var p := BuildTable(c, w, at, typ, table);
      Went(c, floor, |w.arrivals|, w, p.w) && Reaches(w, p.w, TablePlace(at, typ, table))
    decreases |c.binary| - at, 5, 1
  {
    hide Tracked, VTablesStand, Went, Reaches, NonEmpty, Doomed, IsVTableOf, Contains, EnterTable, AfterFields,
      HeadRegion, FieldsFollowed, ShowsTableAt, Law, IsTable, PadTable, TableEnd;
    var place, lo, f := TablePlace(at, typ, table), |w.arrivals|, EnterTable(c, w, at, typ, table);
    var w0, p, r := Arrive(w, place), AfterFields(c, f.w, at, table, v), BuildTable(c, w, at, typ, table);
    EnterWent(c, floor, w, at, typ, table);
    WentGives(c, floor, lo, w0, f.w);
    AllFieldsWent(c, f.w, at, table, v);
    WentGives(c, at, |f.w.arrivals|, f.w, p.w);
    if at !in f.w.sections && at in p.w.sections {
      TakenByVTable(c, |f.w.arrivals|, f.w, p.w, at);
    } else if at in f.w.sections {
      assert p.w.sections[at] == f.w.sections[at];
    }
    TableIsThere(c, w, at, typ, table, v);
    WentLower(c, at, |f.w.arrivals|, f.w, p.w, floor, lo);
    WentOn(c, floor, lo, w0, f.w, lo, p.w);
    var regions := FiledTable(c, w, at, typ, table, v);
    assert p.w.arrivals[lo] == Arrival(place, w.sections);
    FilesFor(c, floor, lo, p.w, at, Section(typ, regions));
    WentOn(c, floor, lo, w0, p.w, lo, r.w);
    assert Opened(c, r.w.sections, r.w.arrivals, lo, at, typ, table, v.builder);
    LawOfTable(c, r.w.sections, r.w.arrivals, lo, at, typ, table, v.builder);
    ArrivalCloses(c, floor, w, place, r.w);
  }

  lemma FiledTable(c: Context, w: Walk, at: nat, typ: SectionType, table: nat, v: VTable) returns (regions: seq<Region>)
    requires Tracked(c, w) && IsTable(c.schema, table) && at < |c.binary|
    requires NonEmpty(w.sections) && !Contains(w.sections, at)
    requires EnterTable(c, w, at, typ, table).vtable == Some(v)
    ensures regions != []
    ensures var p := AfterFields(c, EnterTable(c, w, at, typ, table).w, at, table, v);
      BuildTable(c, w, at, typ, table).w == AddTo(p.w, at, Section(typ, regions))
  {
    hide Tracked, Contains, Doomed, EnterTable, TableFieldsFrom, SortedEntries, NonEmpty, SchemaOk, HeadRegion,
      IsVTableOf, TableEnd;
    var p := AfterFields(c, EnterTable(c, w, at, typ, table).w, at, table, v);
    regions := PadTable(TableEnd(c.binary, at, v), [HeadRegion(c.binary, at)] + p.added);
  }

  lemma {:induction false} TableWent(c: Context, floor: int, w: Walk, at: nat, typ: SectionType, table: nat)
    requires Tracked(c, w) && VTablesStand(c, w) && IsTable(c.schema, table) && floor < at < |c.binary|
    requires typ == TableSection || typ == RootTable
    ensures var p := BuildTable(c, w, at, typ, table);
      Went(c, floor, |w.arrivals|, w, p.w) && Reaches(w, p.w, TablePlace(at, typ, table))
    decreases |c.binary| - at, 6
  {
    hide Tracked, VTablesStand, Went, Reaches, NonEmpty, Doomed, IsVTableOf, Contains, EnterTable, FillTable, Law,
      HasVTable, IsTable;
    TrackedParts(c, w);
    var place, lo, f := TablePlace(at, typ, table), |w.arrivals|, EnterTable(c, w, at, typ, table);
    if Contains(w.sections, at) {
      ArrivesAtContained(c, floor, w, place);
    } else if f.vtable.Some? {
      OpenedTableWent(c, floor, w, at, typ, table, f.vtable.value);
    } else {
      EnterWent(c, floor, w, at, typ, table);
      WentGives(c, floor, lo, Arrive(w, place), f.w);
      assert f.w.arrivals[lo] == Arrival(place, w.sections);
      LawOfTable(c, f.w.sections, f.w.arrivals, lo, at, typ, table, 0);
      ArrivalCloses(c, floor, w, place, f.w);
    }
  }

  // ---- The whole walk, and the finished annotation ------------------------------------------------

  lemma HeaderStands(c: Context, isSizePrefixed: bool)
    requires Walkable(c)
    ensures var w := WalkHeader(c, isSizePrefixed);
      && NonEmpty(w.sections) && VTablesStand(c, w) && w.arrivals == []
      && w.sections == map[0 := Section(Header, HeaderRegions(c.binary, isSizePrefixed))]
  {
    hide Tracked, SchemaOk, HeaderRegions, SizesOf;
    TrackedParts(c, WalkHeader(c, isSizePrefixed));
  }

  lemma PassesKeepAll(binary: seq<byte>, m: Sections)
    requires NonEmpty(m)
    ensures Keeps(m, WithMissing(binary, FilledSections(binary, m)))
  {
    hide WithMissing, FilledSections, Tiles, Apart, Subsequence;
    forall k | k in m
      ensures var r := WithMissing(binary, FilledSections(binary, m));
        k in r && r[k].typ == m[k].typ && forall region | region in m[k].regions :: region in r[k].regions
    {
      PassesKeep(binary, m, k);
    }
  }

  /** The sections that Annotate returns, if it reads no null field. */
  function Annotation(c: Context, rootTable: nat, isSizePrefixed: bool): Sections
    requires Walkable(c) && IsTable(c.schema, rootTable)
  {
    var m := WalkAll(c, rootTable, isSizePrefixed).w.sections;
    TrackedParts(c, WalkAll(c, rootTable, isSizePrefixed).w);
    WithMissing(c.binary, FilledSections(c.binary, m))
  }

  /** The places that the walk comes to, in order. */
  function Arrivals(c: Context, rootTable: nat, isSizePrefixed: bool): seq<Arrival>
    requires Walkable(c) && IsTable(c.schema, rootTable)
  {
    WalkAll(c, rootTable, isSizePrefixed).w.arrivals
  }

  /** The sections before arrival number `i`: the header, and those filed for earlier arrivals; all of them stay. */
  ghost predicate FiledBefore(c: Context, m: Sections, arrivals: seq<Arrival>, i: nat)
    requires i < |arrivals|
  {
    && Keeps(arrivals[i].before, m)
    && forall k | k in arrivals[i].before && k != 0 :: FiledSince(c.binary, arrivals, 0, i, k)
  }

  /** The walk from the root table on. */
  lemma RootWent(c: Context, rootTable: nat, isSizePrefixed: bool)
    requires Walkable(c) && IsTable(c.schema, rootTable) && RootLocation(c.binary, isSizePrefixed) < |c.binary|
    ensures var w, r := WalkHeader(c, isSizePrefixed), WalkAll(c, rootTable, isSizePrefixed).w;
      var place := TablePlace(RootLocation(c.binary, isSizePrefixed), RootTable, rootTable);
      Went(c, -1, 0, w, r) && r.arrivals != [] && r.arrivals[0] == Arrival(place, w.sections)
  {
    hide Tracked, Went, NonEmpty, VTablesStand, SchemaOk, RootLocation, WalkHeader, EnterTable, FillTable, Contains,
      IsVTableOf;
    var w, root := WalkHeader(c, isSizePrefixed), RootLocation(c.binary, isSizePrefixed);
    HeaderStands(c, isSizePrefixed);
    TableWent(c, -1, w, root, RootTable, rootTable);
    FirstArrival(c, w, root, RootTable, rootTable);
  }

  lemma {:induction false} FirstArrival(c: Context, w: Walk, at: nat, typ: SectionType, table: nat)
    requires Tracked(c, w) && VTablesStand(c, w) && IsTable(c.schema, table) && at < |c.binary|
    requires typ == TableSection || typ == RootTable
    ensures var r := BuildTable(c, w, at, typ, table).w;
      |w.arrivals| < |r.arrivals| && r.arrivals[|w.arrivals|] == Arrival(TablePlace(at, typ, table), w.sections)
  {
    hide Tracked, Went, VTablesStand, SchemaOk, EnterTable, Contains, IsVTableOf, NonEmpty, Doomed, AfterFields,
      HasVTable, FillTable;
    TrackedParts(c, w);
    if !Contains(w.sections, at) {
      EnterWent(c, -1, w, at, typ, table);
      var f := EnterTable(c, w, at, typ, table);
      if f.vtable.Some? {
        WentGives(c, -1, |w.arrivals|, Arrive(w, TablePlace(at, typ, table)), f.w);
        AllFieldsWent(c, f.w, at, table, f.vtable.value);
        var p := AfterFields(c, f.w, at, table, f.vtable.value);
        WentGives(c, at, |f.w.arrivals|, f.w, p.w);
        var regions := FiledTable(c, w, at, typ, table, f.vtable.value);
      }
    }
  }

  /**
   Nothing that leads somewhere is left out. The walk comes first to the root table. Each place it
   comes to is inside a section that was there before, or it has its own section in the finished
   annotation; then whatever its fields or elements lead to inside the binary is a place that the
   walk comes to later, as a table of the schema's type, a string, a vector, or what a union's type says.
   */
  lemma EveryLinkIsFollowed(c: Context, rootTable: nat, isSizePrefixed: bool, i: nat)
    requires Walkable(c) && IsTable(c.schema, rootTable) && RootLocation(c.binary, isSizePrefixed) < |c.binary|
    ensures var arrivals := Arrivals(c, rootTable, isSizePrefixed);
      && arrivals != []
      && arrivals[0].place == TablePlace(RootLocation(c.binary, isSizePrefixed), RootTable, rootTable)
      && (i < |arrivals| ==>
           && Law(c, Annotation(c, rootTable, isSizePrefixed), arrivals, i)
           && FiledBefore(c, Annotation(c, rootTable, isSizePrefixed), arrivals, i))
  {
    hide Tracked, NonEmpty, VTablesStand, SchemaOk, RootLocation, WalkHeader, WalkAll, Law, WithMissing,
      FilledSections, FiledSince, Keeps, Grows;
    var w, r := WalkHeader(c, isSizePrefixed), WalkAll(c, rootTable, isSizePrefixed).w;
    var m := Annotation(c, rootTable, isSizePrefixed);
    HeaderStands(c, isSizePrefixed);
    RootWent(c, rootTable, isSizePrefixed);
    if i < |r.arrivals| {
      assert Between(c, -1, 0, w, r, i);
      PassesKeepAll(c.binary, r.sections);
      LawStays(c, r.sections, m, r.arrivals, r.arrivals, i);
      GrowsKeeps(r.arrivals[i].before, r.sections);
      KeepsOn(r.arrivals[i].before, r.sections, m);
    }
  }

  lemma KeepsOn(a: Sections, b: Sections, m: Sections)
    requires Keeps(a, b) && Keeps(b, m)
    ensures Keeps(a, m)
  {
  }

  /** And nothing is filed for anything else: every section of the walk but the header is one of a place it came to. */
  lemma EverySectionIsFiledFor(c: Context, rootTable: nat, isSizePrefixed: bool, k: nat)
    requires Walkable(c) && IsTable(c.schema, rootTable) && k in WalkAll(c, rootTable, isSizePrefixed).w.sections
    ensures var arrivals := Arrivals(c, rootTable, isSizePrefixed);
      k == 0 || FiledSince(c.binary, arrivals, 0, |arrivals|, k)
  {
    hide Tracked, NonEmpty, VTablesStand, SchemaOk, RootLocation, WalkHeader, Law, FiledSince, Grows, BuildTable;
    HeaderStands(c, isSizePrefixed);
    if RootLocation(c.binary, isSizePrefixed) < |c.binary| {
      RootWent(c, rootTable, isSizePrefixed);
    }
  }
}
