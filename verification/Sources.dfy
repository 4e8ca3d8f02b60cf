/**
 The walk comes to nothing else: every place but the root is what the schema and the words of an
 earlier place of the list lead to.
 */
module Sources {
  import opened Codec
  import opened Wrappers
  import opened Annotated
  import opened Sorting
  import opened Gaps
  import opened Walks
  import opened TableRegions
  import opened Links
  import opened Closure

  // ---- Links of the walk --------------------------------------------------------------------

  /** A union field whose type field is not present: the type is read where the entry for it leads all the same. */
  predicate StrayUnion(c: Context, at: nat, table: nat, builder: nat, id: nat, q: Place) {
    && SchemaOk(c.schema, c.ranks) && IsTable(c.schema, table) && id < |FieldsOf(c, table)|
    && ShareVTable(c.binary, at, builder) && FieldsOf(c, table)[id].typ.base == Union
    && (id > 0 ==> FieldOffset(c, at, table, builder, id - 1).None?)
    && FieldOffset(c, at, table, builder, id).Some?
    && Leads(c.binary, FieldOffset(c, at, table, builder, id).value).Some?
    && HasType(c, at, Leads(c.binary, FieldOffset(c, at, table, builder, id).value).value, id,
               FieldsOf(c, table)[id].typ.index, MakeVTable(c, LeadOf(c.binary, at), table, builder).fields, q)
  }

  function Cursor(start: nat, m: nat): nat {
    start + 4 * m
  }

  /** The types of all `n` elements are present, and inside the binary. */
  predicate TypesPresent(c: Context, parent: nat, table: nat, builder: nat, id: nat, n: nat) {
    var types := if id > 0 then FieldOffset(c, parent, table, builder, id - 1) else None;
    types.Some? && types.value + 2 <= |c.binary| && TypeOf(c.binary, types.value, n) <= |c.binary|
  }

  /** A vector of unions whose types are not all there: some element has some type of the enum. */
  ghost predicate StrayElement(c: Context, vector: nat, table: nat, id: nat, parent: nat, builder: nat, q: Place) {
    && IsTable(c.schema, table) && id < |FieldsOf(c, table)| && FieldsOf(c, table)[id].typ.element == Union
    && var t := FieldsOf(c, table)[id].typ;
       && vector + LengthBytes(t) <= |c.binary|
       && !TypesPresent(c, parent, table, builder, id, Get(c.binary, vector, LengthBytes(t)))
       && SomeElement(c, vector + LengthBytes(t), t.index, q)
  }

  ghost predicate SomeElement(c: Context, start: nat, enumId: int, q: Place) {
    exists m: nat, t: nat :: ElementIs(c, start, m, enumId, t, q)
  }

  /** Element `m` leads to `q` if its type is value `t` of the enum. */
  predicate ElementIs(c: Context, start: nat, m: nat, enumId: int, t: nat, q: Place) {
    Leads(c.binary, Cursor(start, m)).Some? && UnionLink(c, enumId, t, Leads(c.binary, Cursor(start, m)).value, q)
  }

  ghost predicate TableLinks(c: Context, at: nat, table: nat, q: Place) {
    exists builder: nat, id: nat ::
      && ShareVTable(c.binary, at, builder)
      && (FieldLink(c, at, table, builder, id, q) || StrayUnion(c, at, table, builder, id, q))
  }

  ghost predicate VectorLinks(c: Context, vector: nat, table: nat, id: nat, parent: nat, builder: nat, q: Place) {
    || (exists j: nat :: ElementLink(c, vector, table, id, parent, builder, j, q))
    || StrayElement(c, vector, table, id, parent, builder, q)
  }

  /** The place `p` leads to the place `q`. */
  ghost predicate LinksTo(c: Context, p: Place, q: Place) {
    match p
    case TablePlace(at, _, table) => TableLinks(c, at, table, q)
    case VectorPlace(at, table, id, parent, builder) => VectorLinks(c, at, table, id, parent, builder, q)
    case _ => false
  }

  /** Arrival number `i` is a link of one of the arrivals from `lo` on. */
  ghost predicate LinkedWithin(c: Context, arrivals: seq<Arrival>, lo: nat, i: nat)
    requires i < |arrivals|
  {
    exists k :: lo <= k < i && LinksTo(c, arrivals[k].place, arrivals[i].place)
  }

  /** All arrivals since `w` are links of `p`, or of each other. */
  ghost predicate From(c: Context, p: Place, w: Walk, w1: Walk) {
    && w.arrivals <= w1.arrivals
    && forall i: nat | |w.arrivals| <= i < |w1.arrivals| ::
         LinksTo(c, p, w1.arrivals[i].place) || LinkedWithin(c, w1.arrivals, |w.arrivals|, i)
  }

  /** The first arrival since `w` is `q`, and all others follow from it. */
  ghost predicate Rooted(c: Context, q: Place, w: Walk, w1: Walk) {
    && w.arrivals <= w1.arrivals && |w.arrivals| < |w1.arrivals| && w1.arrivals[|w.arrivals|].place == q
    && forall i: nat | |w.arrivals| < i < |w1.arrivals| :: LinkedWithin(c, w1.arrivals, |w.arrivals|, i)
  }

  lemma FromNothing(c: Context, p: Place, w: Walk, w1: Walk)
    requires w1.arrivals == w.arrivals
    ensures From(c, p, w, w1)
  {
  }

  lemma RootedFrom(c: Context, p: Place, q: Place, w: Walk, w1: Walk)
    requires Rooted(c, q, w, w1) && LinksTo(c, p, q)
    ensures From(c, p, w, w1)
  {
    hide LinksTo, LinkedWithin;
  }

  /** What follows from a place, behind its arrival. */
  lemma FromRooted(c: Context, q: Place, w: Walk, w0: Walk, w1: Walk)
    requires w0.arrivals == Arrive(w, q).arrivals && From(c, q, w0, w1)
    ensures Rooted(c, q, w, w1)
  {
    hide LinksTo;
    forall i: nat | |w.arrivals| < i < |w1.arrivals|
      ensures LinkedWithin(c, w1.arrivals, |w.arrivals|, i)
    {
      assert w1.arrivals[|w.arrivals|] == w0.arrivals[|w.arrivals|];
      if !LinksTo(c, q, w1.arrivals[i].place) {
        assert LinkedWithin(c, w1.arrivals, |w0.arrivals|, i);
      }
    }
  }

  lemma WithinStays(c: Context, arrivals: seq<Arrival>, arrivals1: seq<Arrival>, lo: nat, lo1: nat, i: nat)
    requires i < |arrivals| && arrivals <= arrivals1 && lo1 <= lo && LinkedWithin(c, arrivals, lo, i)
    ensures LinkedWithin(c, arrivals1, lo1, i)
  {
    hide LinksTo;
    var k :| lo <= k < i && LinksTo(c, arrivals[k].place, arrivals[i].place);
    assert arrivals1[k] == arrivals[k] && arrivals1[i] == arrivals[i];
  }

  lemma FromOn(c: Context, p: Place, w: Walk, w1: Walk, w2: Walk)
    requires From(c, p, w, w1) && From(c, p, w1, w2)
    ensures From(c, p, w, w2)
  {
    hide LinksTo, LinkedWithin;
    forall i: nat | |w.arrivals| <= i < |w2.arrivals|
      ensures LinksTo(c, p, w2.arrivals[i].place) || LinkedWithin(c, w2.arrivals, |w.arrivals|, i)
    {
      if i < |w1.arrivals| {
        assert w2.arrivals[i] == w1.arrivals[i];
        if !LinksTo(c, p, w1.arrivals[i].place) {
          WithinStays(c, w1.arrivals, w2.arrivals, |w.arrivals|, |w.arrivals|, i);
        }
      } else if !LinksTo(c, p, w2.arrivals[i].place) {
        WithinStays(c, w2.arrivals, w2.arrivals, |w1.arrivals|, |w.arrivals|, i);
      }
    }
  }

  /** Sections, vtables and visits do not count. */
  lemma FromSame(c: Context, p: Place, w: Walk, w0: Walk, w1: Walk, w2: Walk)
    requires w0.arrivals == w.arrivals && w2.arrivals == w1.arrivals && From(c, p, w0, w1)
    ensures From(c, p, w, w2)
  {
    hide LinksTo, LinkedWithin;
  }

  // ---- Strings and vectors ----------------------------------------------------------------------

  lemma StringSource(c: Context, w: Walk, at: nat)
    requires Tracked(c, w)
    ensures Rooted(c, StringPlace(at), w, BuildString(c, w, at))
  {
    hide Tracked, Contains, StringRegions, LinksTo;
    TrackedParts(c, w);
  }

  /** The words from the cursor on are those of elements that are strings. */
  ghost predicate StringLinks(c: Context, p: Place, start: nat, n: nat) {
    forall m: nat | m < n && Leads(c.binary, Cursor(start, m)).Some? ::
      LinksTo(c, p, StringPlace(Leads(c.binary, Cursor(start, m)).value))
  }

  ghost predicate ElementTables(c: Context, p: Place, table: nat, start: nat, n: nat) {
    forall m: nat | m < n && Leads(c.binary, Cursor(start, m)).Some? ::
      LinksTo(c, p, TablePlace(Leads(c.binary, Cursor(start, m)).value, TableSection, table))
  }

  lemma {:induction false} StringsSource(c: Context, p: Place, w: Walk, length: nat, i: nat, start: nat,
                                         added: seq<Region>)
    requires Tracked(c, w) && StringLinks(c, p, start, length)
    ensures From(c, p, w, StringsFrom(c, w, length, i, Cursor(start, i), added).w)
    decreases length - i
  {
    hide Tracked, StringsFrom, BuildString, Target, Leads, NonEmpty, OffsetRegion, LinksTo, From, Rooted, SchemaOk;
    TrackedParts(c, w);
    var offset := Cursor(start, i);
    NextString(c, w, length, i, offset, added);
    TargetLeads(c.binary, offset);
    var all, target := added + [OffsetRegion(c.binary, offset)], Target(c.binary, offset);
    FromNothing(c, p, w, w);
    if i < length && target.Some? {
      var w1 := if IsValidOffset(c.binary, target.value) then BuildString(c, w, target.value) else w;
      if IsValidOffset(c.binary, target.value) {
        StringSource(c, w, target.value);
        RootedFrom(c, p, StringPlace(target.value), w, w1);
      }
      StringsSource(c, p, w1, length, i + 1, start, all);
      assert Cursor(start, i + 1) == offset + 4;
      FromOn(c, p, w, w1, StringsFrom(c, w1, length, i + 1, offset + 4, all).w);
    }
  }

  lemma CursorIs(start: nat, i: nat)
    ensures Cursor(start, i) == start + 4 * i && Cursor(start, i + 1) == start + 4 * (i + 1)
  {
  }

  lemma FollowedTable(c: Context, w: Walk, vector: nat, table: nat, target: nat)
    requires Tracked(c, w) && IsTable(c.schema, table) && vector < target
    ensures FollowTable(c, w, vector, table, target)
      == if target < |c.binary| then BuildTable(c, w, target, TableSection, table) else Progress(w, [])
  {
    hide Tracked, BuildTable, Doomed;
  }

  lemma {:induction false} TablesSource(c: Context, p: Place, w: Walk, vector: nat, table: nat, length: nat, i: nat,
                                        start: nat, added: seq<Region>)
    requires Tracked(c, w) && IsTable(c.schema, table) && vector < |c.binary| && vector < start
    requires ElementTables(c, p, table, start, length)
    ensures From(c, p, w, TablesFrom(c, w, vector, table, length, i, Cursor(start, i), added).w)
    decreases |c.binary| - vector, 0, length - i
  {
    hide Tracked, TablesFrom, BuildTable, Target, Leads, NonEmpty, OffsetRegion, LinksTo, From, Rooted, SchemaOk,
      IsTable, FollowTable, Doomed, Cursor;
    assert Cursor(start, i) == start + 4 * i && Cursor(start, i + 1) == start + 4 * (i + 1) by { CursorIs(start, i); }
    TrackedParts(c, w);
    var offset := Cursor(start, i);
    NextTable(c, w, vector, table, length, i, offset, added);
    TargetLeads(c.binary, offset);
    var all, target := added + [OffsetRegion(c.binary, offset)], Target(c.binary, offset);
    FromNothing(c, p, w, w);
    if i < length && target.Some? {
      var w1 := FollowTable(c, w, vector, table, target.value).w;
      if IsValidOffset(c.binary, target.value) {
        assert LinksTo(c, p, TablePlace(target.value, TableSection, table));
        TableSource(c, w, target.value, TableSection, table);
        RootedFrom(c, p, TablePlace(target.value, TableSection, table), w,
                   BuildTable(c, w, target.value, TableSection, table).w);
      }
      FollowedTable(c, w, vector, table, target.value);
      TablesSource(c, p, w1, vector, table, length, i + 1, start, all);
      FromOn(c, p, w, w1, TablesFrom(c, w1, vector, table, length, i + 1, offset + 4, all).w);
    }
  }

  /** Unions with types of their own: element `m`, up to which all lead inside, has the type number `m`. */
  ghost predicate TypedLinks(c: Context, p: Place, enumId: int, types: nat, start: nat, n: nat) {
    && types + n <= |c.binary|
    && forall m: nat, q | m < n && LeadInside(c.binary, start, m)
                          && ElementIs(c, start, m, enumId, c.binary[types + m], q) :: LinksTo(c, p, q)
  }

  /** Unions with any types. */
  ghost predicate AnyLinks(c: Context, p: Place, enumId: int, start: nat) {
    forall m: nat, t: nat, q | ElementIs(c, start, m, enumId, t, q) :: LinksTo(c, p, q)
  }

  lemma LeadInsideMore(binary: seq<byte>, start: nat, m: nat)
    requires LeadInside(binary, start, m) && Leads(binary, Cursor(start, m)).Some?
    ensures LeadInside(binary, start, m + 1)
  {
    hide Leads;
  }

  lemma {:induction false} UnionsSource(c: Context, p: Place, w: Walk, vector: nat, enumId: int, types: nat,
                                        length: nat, i: nat, start: nat, m: nat, added: seq<Region>)
    requires Tracked(c, w) && vector < |c.binary| && vector < start
    requires || AnyLinks(c, p, enumId, start)
             || (TypedLinks(c, p, enumId, types, start, length)
                 && (Leads(c.binary, Cursor(start, m)).None? || (m == i && LeadInside(c.binary, start, m))))
    ensures From(c, p, w, UnionsFrom(c, w, vector, enumId, types, length, i, Cursor(start, m), added).w)
    decreases |c.binary| - vector, 0, length - i
  {
    hide Tracked, BuildUnion, Target, Leads, NonEmpty, OffsetRegion, LinksTo, From, SchemaOk, LeadInside,
      IsValidUnionValue, Read, UnionLink, U64, Doomed;
    TrackedParts(c, w);
    var offset := Cursor(start, m);
    TargetLeads(c.binary, offset);
    var r, target := UnionsFrom(c, w, vector, enumId, types, length, i, offset, added).w, Target(c.binary, offset);
    FromNothing(c, p, w, w);
    if i < length && target.Some? {
      assert Cursor(start, m + 1) == offset + 4;
      var region, realized := OffsetRegion(c.binary, offset), Read(c.binary, U64(types + i), 1);
      if Leads(c.binary, offset).Some? && LeadInside(c.binary, start, m) {
        LeadInsideMore(c.binary, start, m);
      }
      if types + i < |c.binary| {
        OneByte(c.binary, types + i);
      }
      if !IsValidOffset(c.binary, target.value) {
        UnionsSource(c, p, w, vector, enumId, types, length, i + 1, start, m, added + [region]);
      } else if realized.None? {
        UnionsSource(c, p, w, vector, enumId, types, length, i + 1, start, m,
                     added + [Region(offset, 0, UnknownBytes, 0, 0)]);
      } else if !IsValidUnionValue(c.schema, enumId, realized.value) {
        UnionsSource(c, p, w, vector, enumId, types, length, i + 1, start, m + 1, added);
      } else {
        var w1 := BuildUnion(c, w, target.value, realized.value, enumId).w;
        forall q | UnionLink(c, enumId, realized.value, target.value, q)
          ensures LinksTo(c, p, q)
        {
          assert ElementIs(c, start, m, enumId, realized.value, q);
        }
        UnionSource(c, p, w, target.value, realized.value, enumId);
        UnionsSource(c, p, w1, vector, enumId, types, length, i + 1, start, m + 1, added + [region]);
        FromOn(c, p, w, w1, r);
      }
    }
  }

  lemma StructSource(c: Context, p: Place, w: Walk, at: nat, index: nat, w1: Walk)
    requires w1.arrivals == Arrive(w, StructPlace(at, index)).arrivals && LinksTo(c, p, StructPlace(at, index))
    ensures From(c, p, w, w1)
  {
    hide LinksTo;
  }

  lemma {:induction false} UnionSource(c: Context, p: Place, w: Walk, at: nat, realizedType: nat, enumId: int)
    requires Tracked(c, w) && at < |c.binary| && IsValidUnionValue(c.schema, enumId, realizedType)
    requires forall q | UnionLink(c, enumId, realizedType, at, q) :: LinksTo(c, p, q)
    ensures From(c, p, w, BuildUnion(c, w, at, realizedType, enumId).w)
    decreases |c.binary| - at, 7
  {
    hide Tracked, Contains, From, Rooted, BuildTable, BuildStruct, NonEmpty, SchemaOk, LinksTo, Doomed;
    TrackedParts(c, w);
    var t := c.schema.enums[enumId][realizedType];
    FromNothing(c, p, w, w);
    if t.base == Obj {
      UnionIsOk(c, enumId, realizedType);
      if c.schema.objects[t.index].isStruct {
        assert UnionLink(c, enumId, realizedType, at, StructPlace(at, t.index));
        StructSource(c, p, w, at, t.index, BuildUnion(c, w, at, realizedType, enumId).w);
      } else {
        assert UnionLink(c, enumId, realizedType, at, TablePlace(at, TableSection, t.index));
        TableSource(c, w, at, TableSection, t.index);
        RootedFrom(c, p, TablePlace(at, TableSection, t.index), w, BuildTable(c, w, at, TableSection, t.index).w);
      }
    }
  }

  lemma {:induction false} TypedUnionsSource(c: Context, p: Place, w: Walk, vector: nat, length: nat, enumId: int,
                                             entry: Entry, field: nat, start: nat)
    requires Tracked(c, w) && vector < |c.binary| && vector < start
    requires || AnyLinks(c, p, enumId, start)
             || (field + 2 <= |c.binary| && TypedLinks(c, p, enumId, TypeOf(c.binary, field, 0), start, length))
    ensures From(c, p, w, TypedUnions(c, w, vector, length, enumId, entry, field, start).w)
    decreases |c.binary| - vector, 1, 0
  {
    hide Tracked, Read, NullUnions, UnionsFrom, NonEmpty, SchemaOk, Get, Doomed, Rest, LinksTo, From, AnyLinks,
      TypedLinks;
    TrackedParts(c, w);
    WordReads(c.binary, field);
    FromNothing(c, p, w, w);
    var relative := Read(c.binary, field, 2);
    if relative.Some? && entry.field.Some? {
      assert Cursor(start, 0) == start;
      UnionsSource(c, p, w, vector, enumId, field + relative.value + 4, length, 0, start, 0, []);
    }
  }

  /** The place of a vector in the field `id` of a table, and the words it needs. */
  predicate IsVector(c: Context, p: Place, vector: nat, length: nat, table: nat, id: nat, parent: nat, v: VTable) {
    && p == VectorPlace(vector, table, id, parent, v.builder)
    && IsTable(c.schema, table) && id < |FieldsOf(c, table)|
    && vector + LengthBytes(FieldsOf(c, table)[id].typ) <= |c.binary|
    && length == Get(c.binary, vector, LengthBytes(FieldsOf(c, table)[id].typ))
  }

  lemma TypedLinksAre(c: Context, p: Place, vector: nat, length: nat, table: nat, id: nat, parent: nat, v: VTable)
    requires IsVector(c, p, vector, length, table, id, parent, v) && FieldsOf(c, table)[id].typ.element == Union
    requires TypesPresent(c, parent, table, v.builder, id, length)
    requires Fits(c.binary, vector + LengthBytes(FieldsOf(c, table)[id].typ), length, 4)
    ensures var t := FieldsOf(c, table)[id].typ;
      TypedLinks(c, p, t.index, TypeOf(c.binary, FieldOffset(c, parent, table, v.builder, id - 1).value, 0),
                 vector + LengthBytes(t), length)
  {
    hide FieldOffset, UnionLink, Leads, LeadInside, Get, Fits, IsTable;
    var t := FieldsOf(c, table)[id].typ;
    var start := vector + LengthBytes(t);
    var types := TypeOf(c.binary, FieldOffset(c, parent, table, v.builder, id - 1).value, 0);
    forall m: nat, q | m < length && LeadInside(c.binary, start, m)
                       && ElementIs(c, start, m, t.index, c.binary[types + m], q)
      ensures LinksTo(c, p, q)
    {
      assert Cursor(start, m) == start + 4 * m;
      assert TypeOf(c.binary, FieldOffset(c, parent, table, v.builder, id - 1).value, m) == types + m;
      assert ElementLink(c, vector, table, id, parent, v.builder, m, q);
    }
  }

  lemma AnyLinksAre(c: Context, p: Place, vector: nat, length: nat, table: nat, id: nat, parent: nat, v: VTable)
    requires IsVector(c, p, vector, length, table, id, parent, v) && FieldsOf(c, table)[id].typ.element == Union
    requires !TypesPresent(c, parent, table, v.builder, id, length)
    ensures AnyLinks(c, p, FieldsOf(c, table)[id].typ.index, vector + LengthBytes(FieldsOf(c, table)[id].typ))
  {
    hide ElementIs, Get, ElementLink, TypesPresent, IsTable;
    var t := FieldsOf(c, table)[id].typ;
    var start, enumId := vector + LengthBytes(t), t.index;
    forall m: nat, realized: nat, q | ElementIs(c, start, m, enumId, realized, q)
      ensures LinksTo(c, p, q)
    {
      assert SomeElement(c, start, enumId, q);
    }
  }

  lemma {:induction false} UnionVectorSource(c: Context, p: Place, w: Walk, vector: nat, length: nat, table: nat,
                                             id: nat, parent: nat, v: VTable)
    requires IsUnionVector(c, vector, length, table, id) && Tracked(c, w) && IsVTableOf(c, parent, table, v)
    requires IsVector(c, p, vector, length, table, id, parent, v)
    requires Fits(c.binary, vector + LengthBytes(FieldsOf(c, table)[id].typ), length, 4)
    ensures From(c, p, w, UnionVector(c, w, vector, length, table, id, parent, v).w)
    decreases |c.binary| - vector, 1, 1
  {
    hide Tracked, From, TypedUnions, NonEmpty, Doomed, IsVTableOf, IsTable, Get, LengthSize, Fits, LinksTo, AnyLinks,
      TypedLinks, FieldOffset, TypeOf, Walkable;
    TrackedParts(c, w);
    TrackedIsWalkable(c, w);
    FromNothing(c, p, w, w);
    var t := FieldsOf(c, table)[id].typ;
    LengthIs(c.binary, vector, t);
    if TypeId(id) in v.fields {
      VisitContinues(c, w, vector, length, table, id, parent, v);
      var entry, w1 := v.fields[TypeId(id)], w.(visits := w.visits + [Visit(parent, table, id, vector, v.builder)]);
      if TypesPresent(c, parent, table, v.builder, id, length) {
        EntryOfField(c, parent, table, v, id - 1);
        TypedLinksAre(c, p, vector, length, table, id, parent, v);
      } else {
        AnyLinksAre(c, p, vector, length, table, id, parent, v);
      }
      var start := vector + LengthSize(t);
      TypedUnionsSource(c, p, w1, vector, length, t.index, entry, parent + entry.offset, start);
      var r := TypedUnions(c, w1, vector, length, t.index, entry, parent + entry.offset, start).w;
      FromSame(c, p, w, w1, r, r);
    }
  }

  lemma StringLinksAre(c: Context, p: Place, vector: nat, length: nat, table: nat, id: nat, parent: nat, v: VTable)
    requires IsVector(c, p, vector, length, table, id, parent, v) && FieldsOf(c, table)[id].typ.element == Str
    requires Fits(c.binary, vector + LengthBytes(FieldsOf(c, table)[id].typ), length, 4)
    ensures StringLinks(c, p, vector + LengthBytes(FieldsOf(c, table)[id].typ), length)
  {
    hide Leads, Get, Fits, UnionElementLink, IsTable;
    var start := vector + LengthBytes(FieldsOf(c, table)[id].typ);
    forall m: nat | m < length && Leads(c.binary, Cursor(start, m)).Some?
      ensures LinksTo(c, p, StringPlace(Leads(c.binary, Cursor(start, m)).value))
    {
      assert ElementLink(c, vector, table, id, parent, v.builder, m,
                         StringPlace(Leads(c.binary, Cursor(start, m)).value));
    }
  }

  lemma ElementTablesAre(c: Context, p: Place, vector: nat, length: nat, table: nat, id: nat, parent: nat, v: VTable)
    requires IsVector(c, p, vector, length, table, id, parent, v) && FieldsOf(c, table)[id].typ.element == Obj
    requires IsTable(c.schema, FieldsOf(c, table)[id].typ.index)
    requires Fits(c.binary, vector + LengthBytes(FieldsOf(c, table)[id].typ), length, 4)
    ensures var t := FieldsOf(c, table)[id].typ;
      0 <= t.index && ElementTables(c, p, t.index, vector + LengthBytes(t), length)
  {
    hide Leads, Get, Fits, UnionElementLink;
    var t := FieldsOf(c, table)[id].typ;
    var start := vector + LengthBytes(t);
    forall m: nat | m < length && Leads(c.binary, Cursor(start, m)).Some?
      ensures LinksTo(c, p, TablePlace(Leads(c.binary, Cursor(start, m)).value, TableSection, t.index))
    {
      assert ElementLink(c, vector, table, id, parent, v.builder, m,
                         TablePlace(Leads(c.binary, Cursor(start, m)).value, TableSection, t.index));
    }
  }

  /** The elements of a vector whose end is inside the binary. */
  lemma {:induction false} ElementsSource(c: Context, p: Place, w: Walk, vector: nat, length: nat, table: nat, id: nat,
                                          parent: nat, v: VTable)
    requires IsTable(c.schema, table) && vector < |c.binary|
    requires id < |FieldsOf(c, table)| && length == Word(c.binary, vector, LengthSize(FieldsOf(c, table)[id].typ))
    requires Tracked(c, w) && IsVTableOf(c, parent, table, v) && IsVector(c, p, vector, length, table, id, parent, v)
    requires FieldsOf(c, table)[id].typ.element == Obj ==> IsObject(c.schema, FieldsOf(c, table)[id].typ.index)
    requires ElementsInside(c, vector, FieldsOf(c, table)[id].typ, length)
    ensures From(c, p, w, Elements(c, w, vector, length, table, id, parent, v).w)
    decreases |c.binary| - vector, 2
  {
    hide Tracked, From, NonEmpty, Doomed, SchemaOk, Elements, StringsFrom, UnionVector, ScalarsFrom, IsVTableOf, Fits,
      Get, LengthSize, Word, Continues, StringLinks, ElementTables, ElementsInside, TablesFrom, StructsFrom;
    TrackedParts(c, w);
    FromNothing(c, p, w, w);
    ElementsByType(c, w, vector, length, table, id, parent, v);
    var t := FieldsOf(c, table)[id].typ;
    var start := vector + LengthSize(t);
    LengthIs(c.binary, vector, t);
    InsideIsFits(c, vector, t, length);
    assert Cursor(start, 0) == start;
    if t.element == Obj && !c.schema.objects[t.index].isStruct {
      ElementTablesAre(c, p, vector, length, table, id, parent, v);
      TablesSource(c, p, w, vector, t.index, length, 0, start, []);
    } else if t.element == Str {
      StringLinksAre(c, p, vector, length, table, id, parent, v);
      StringsSource(c, p, w, length, 0, start, []);
    } else if t.element == Union {
      UnionVectorSource(c, p, w, vector, length, table, id, parent, v);
    }
  }

  lemma FilledVectorIs(c: Context, w: Walk, vector: nat, length: nat, table: nat, id: nat, parent: nat, v: VTable)
    requires IsTable(c.schema, table) && vector < |c.binary|
    requires id < |FieldsOf(c, table)| && length == Word(c.binary, vector, LengthSize(FieldsOf(c, table)[id].typ))
    requires Tracked(c, w) && IsVTableOf(c, parent, table, v)
    ensures FillVector(c, w, vector, length, table, id, parent, v).w.arrivals
      == Elements(c, w, vector, length, table, id, parent, v).w.arrivals
  {
    hide Tracked, Doomed, SchemaOk, IsVTableOf, Elements, Word, LengthSize, LengthRegion;
  }

  lemma {:induction false} VectorSource(c: Context, w: Walk, vector: nat, table: nat, id: nat, parent: nat, v: VTable)
    requires IsTable(c.schema, table) && vector < |c.binary| && id < |FieldsOf(c, table)|
    requires Tracked(c, w) && IsVTableOf(c, parent, table, v)
    ensures Rooted(c, VectorPlace(vector, table, id, parent, v.builder), w,
                   BuildVector(c, w, vector, table, id, parent, v).w)
    decreases |c.binary| - vector, 4
  {
    hide Tracked, From, Rooted, NonEmpty, Doomed, SchemaOk, IsVTableOf, Get, Contains, Elements, IsTable, Read,
      LengthSize, LengthRegion, ElementsInside, Rest, FillVector;
    var t, place := FieldsOf(c, table)[id].typ, VectorPlace(vector, table, id, parent, v.builder);
    TrackedParts(c, w);
    FieldIsOk(c, table, id);
    ArrivesContinues(c, w, place);
    LengthReads(c.binary, vector, t);
    LengthIs(c.binary, vector, t);
    var w0, length, r := Arrive(w, place), Read(c.binary, vector, LengthSize(t)),
                         BuildVector(c, w, vector, table, id, parent, v).w;
    if !Contains(w.sections, vector) && length.Some? && ElementsInside(c, vector, t, length.value) {
      ElementsSource(c, place, w0, vector, length.value, table, id, parent, v);
      FilledVectorIs(c, w0, vector, length.value, table, id, parent, v);
      FromSame(c, place, w0, w0, Elements(c, w0, vector, length.value, table, id, parent, v).w, r);
    } else {
      FromNothing(c, place, w0, r);
    }
    FromRooted(c, place, w, w0, r);
  }

  // ---- Fields of tables -------------------------------------------------------------------------

  /** The place of a table. */
  predicate IsTablePlace(p: Place, at: nat, table: nat) {
    p.TablePlace? && p.at == at && p.table == table
  }

  lemma {:induction false} UnionFieldSource(c: Context, p: Place, w: Walk, at: nat, word: Region, union: nat, id: nat,
                                            enumId: int, fields: map<nat, Entry>)
    requires Tracked(c, w) && at < union < |c.binary|
    requires forall q | HasType(c, at, union, id, enumId, fields, q) :: LinksTo(c, p, q)
    ensures From(c, p, w, UnionField(c, w, at, word, union, id, enumId, fields).w)
    decreases |c.binary| - at, 1
  {
    hide Tracked, From, NonEmpty, Doomed, SchemaOk, Read, IsValidUnionValue, UnionLink, TypeId, BuildUnion, Rest,
      LinksTo;
    TrackedParts(c, w);
    FromNothing(c, p, w, w);
    if TypeId(id) in fields {
      var typeOffset := at + fields[TypeId(id)].offset;
      if typeOffset < |c.binary| {
        OneByte(c.binary, typeOffset);
        assert U64(typeOffset) == typeOffset;
      }
      var realized := Read(c.binary, typeOffset, 1);
      if realized.Some? && IsValidUnionValue(c.schema, enumId, realized.value) {
        ReadIsInside(c.binary, typeOffset);
        UnionSource(c, p, w, union, realized.value, enumId);
      }
    }
  }

  lemma ReadIsInside(binary: seq<byte>, at: nat)
    ensures Read(binary, at, 1).Some? ==> at < |binary|
  {
  }

  /** An entry of the vtable that has its field: the field is present. */
  lemma FieldOfEntry(c: Context, at: nat, table: nat, v: VTable, id: nat)
    requires Walkable(c) && IsVTableOf(c, at, table, v) && id in v.fields && v.fields[id].field == Some(id)
    requires v.fields[id].offset > 0
    ensures FieldOffset(c, at, table, v.builder, id) == Some(at + v.fields[id].offset)
  {
    hide SchemaOk, EntriesFor, KnownUpTo, Get, Expected;
    EntryMeans(c, LeadOf(c.binary, at), table, v.builder, id);
    EntryIsField(c, at, table, v, id);
  }

  lemma EntryIsField(c: Context, at: nat, table: nat, v: VTable, id: nat)
    requires Walkable(c) && IsTable(c.schema, table) && id < |FieldsOf(c, table)| && id < 0x1_0000
    requires at + 4 <= |c.binary| && SizesOf(c.binary, LeadOf(c.binary, at)).Some?
    requires HasKnown(c.binary, LeadOf(c.binary, at), SizesOf(c.binary, LeadOf(c.binary, at)).value.0, v.builder, id)
    requires Word(c.binary, LeadOf(c.binary, at) + 4 + id * 2, 2) > 0 && v.builder < 0x4000_0000_0000_0000
    ensures FieldOffset(c, at, table, v.builder, id)
      == Some(at + Word(c.binary, LeadOf(c.binary, at) + 4 + id * 2, 2))
  {
    hide SchemaOk, Get;
    Widths();
    var distance := Word(c.binary, LeadOf(c.binary, at) + 4 + id * 2, 2);
    assert U64(v.builder + distance - 1) == v.builder + distance - 1;
  }

  /** Where the field that is followed leads, to a place of its type. */
  lemma FieldLinks(c: Context, at: nat, table: nat, v: VTable, id: nat, q: Place)
    requires FieldOffset(c, at, table, v.builder, id).Some? && ShareVTable(c.binary, at, v.builder)
    requires Leads(c.binary, FieldOffset(c, at, table, v.builder, id).value).Some?
    requires var t, field := FieldsOf(c, table)[id].typ, FieldOffset(c, at, table, v.builder, id).value;
      var target := Leads(c.binary, field).value;
      && target != field
      && (|| (t.base == Obj && IsTable(c.schema, t.index) && q == TablePlace(target, TableSection, t.index))
          || (t.base == Str && q == StringPlace(target))
          || ((t.base == Vec || t.base == Vec64) && q == VectorPlace(target, table, id, at, v.builder)))
    ensures TableLinks(c, at, table, q)
  {
    hide FieldOffset, Leads, UnionLink, ShareVTable;
    assert FieldLink(c, at, table, v.builder, id, q);
  }

  lemma UnionLinks(c: Context, at: nat, table: nat, v: VTable, id: nat, q: Place)
    requires Walkable(c) && IsVTableOf(c, at, table, v) && FieldOffset(c, at, table, v.builder, id).Some?
    requires id < |FieldsOf(c, table)| && FieldsOf(c, table)[id].typ.base == Union
    requires Leads(c.binary, FieldOffset(c, at, table, v.builder, id).value).Some?
    requires Leads(c.binary, FieldOffset(c, at, table, v.builder, id).value).value
      != FieldOffset(c, at, table, v.builder, id).value
    requires HasType(c, at, Leads(c.binary, FieldOffset(c, at, table, v.builder, id).value).value, id,
                     FieldsOf(c, table)[id].typ.index, v.fields, q)
    ensures TableLinks(c, at, table, q)
  {
    hide FieldOffset, Leads, UnionLink, SchemaOk, EntriesFor, TypeId, MakeVTable, SizesOf, LeadOf, Walkable;
    Shares(c, at, table, v);
    if id > 0 && FieldOffset(c, at, table, v.builder, id - 1).Some? {
      EntryOfField(c, at, table, v, id - 1);
      TypeIdIs(id);
      assert FieldLink(c, at, table, v.builder, id, q);
    } else {
      assert StrayUnion(c, at, table, v.builder, id, q);
    }
  }

  lemma TypeIdIs(id: nat)
    ensures 0 < id <= 0x1_0000 ==> TypeId(id) == id - 1
  {
  }

  lemma {:induction false} FollowSource(c: Context, p: Place, w: Walk, at: nat, field: nat, word: Region, table: nat,
                                        id: nat, v: VTable)
    requires IsTable(c.schema, table) && at < word.pointsTo < |c.binary| && IsTablePlace(p, at, table)
    requires id < |FieldsOf(c, table)| && !IsScalar(FieldsOf(c, table)[id].typ.base)
    requires FieldsOf(c, table)[id].typ.base == Obj ==> IsTable(c.schema, FieldsOf(c, table)[id].typ.index)
    requires Tracked(c, w) && IsVTableOf(c, at, table, v)
    requires Leads(c.binary, field) == Some(word.pointsTo) && word.pointsTo != field
    requires FieldOffset(c, at, table, v.builder, id) == Some(field)
    ensures From(c, p, w, FollowField(c, w, at, word, table, id, v).w)
    decreases |c.binary| - at, 2, 0
  {
    hide Tracked, From, Rooted, NonEmpty, Doomed, SchemaOk, IsVTableOf, BuildTable, BuildVector, BuildString,
      UnionField, Leads, UnionLink, TypeId, IsScalar, FieldOffset, TableLinks, HasType, ShareVTable;
    TrackedParts(c, w);
    TrackedIsWalkable(c, w);
    FromNothing(c, p, w, w);
    Shares(c, at, table, v);
    var t, target := FieldsOf(c, table)[id].typ, word.pointsTo;
    match t.base
    case Obj =>
      FieldLinks(c, at, table, v, id, TablePlace(target, TableSection, t.index));
      TableSource(c, w, target, TableSection, t.index);
      RootedFrom(c, p, TablePlace(target, TableSection, t.index), w, BuildTable(c, w, target, TableSection, t.index).w);
    case Str =>
      FieldLinks(c, at, table, v, id, StringPlace(target));
      StringSource(c, w, target);
      RootedFrom(c, p, StringPlace(target), w, BuildString(c, w, target));
    case Vec =>
      FollowedVector(c, p, w, at, target, table, id, v);
    case Vec64 =>
      FollowedVector(c, p, w, at, target, table, id, v);
    case Union =>
      forall q | HasType(c, at, target, id, t.index, v.fields, q)
        ensures LinksTo(c, p, q)
      {
        UnionLinks(c, at, table, v, id, q);
      }
      UnionFieldSource(c, p, w, at, word, target, id, t.index, v.fields);
    case _ =>
  }

  lemma {:induction false} FollowedVector(c: Context, p: Place, w: Walk, at: nat, target: nat, table: nat, id: nat,
                                          v: VTable)
    requires IsTable(c.schema, table) && at < target < |c.binary| && IsTablePlace(p, at, table)
    requires id < |FieldsOf(c, table)| && Tracked(c, w) && IsVTableOf(c, at, table, v)
    requires FieldsOf(c, table)[id].typ.base == Vec || FieldsOf(c, table)[id].typ.base == Vec64
    requires FieldOffset(c, at, table, v.builder, id).Some?
    requires Leads(c.binary, FieldOffset(c, at, table, v.builder, id).value) == Some(target)
    requires target != FieldOffset(c, at, table, v.builder, id).value
    ensures From(c, p, w, BuildVector(c, w, target, table, id, at, v).w)
    decreases |c.binary| - at, 1, 2
  {
    hide Tracked, From, Rooted, NonEmpty, Doomed, SchemaOk, IsVTableOf, BuildVector, Leads, FieldOffset, TableLinks,
      ShareVTable;
    Shares(c, at, table, v);
    var place := VectorPlace(target, table, id, at, v.builder);
    FieldLinks(c, at, table, v, id, place);
    VectorSource(c, w, target, table, id, at, v);
    RootedFrom(c, p, place, w, BuildVector(c, w, target, table, id, at, v).w);
  }

  lemma {:induction false} OffsetFieldSource(c: Context, p: Place, w: Walk, at: nat, field: nat, table: nat, id: nat,
                                             v: VTable)
    requires IsTable(c.schema, table) && at < field < |c.binary| && IsTablePlace(p, at, table)
    requires id < |FieldsOf(c, table)| && !IsScalar(FieldsOf(c, table)[id].typ.base)
    requires Tracked(c, w) && IsVTableOf(c, at, table, v) && FieldOffset(c, at, table, v.builder, id) == Some(field)
    ensures From(c, p, w, OffsetField(c, w, at, field, table, id, v).w)
    decreases |c.binary| - at, 2, 1
  {
    hide Tracked, From, NonEmpty, Doomed, SchemaOk, IsVTableOf, FollowField, FieldOffset, Leads, IsScalar, Read,
      BuildStruct, Rest, Get;
    TrackedParts(c, w);
    FromNothing(c, p, w, w);
    FieldIsOk(c, table, id);
    WordsRead(c.binary, field);
    var t, relative := FieldsOf(c, table)[id].typ, Read(c.binary, field, 4);
    if !IsInlineField(c.schema, t) && relative.Some? && relative.value != 0 && field + relative.value < |c.binary| {
      FollowSource(c, p, w, at, field, Region(field, 4, UOffset, 0, field + relative.value), table, id, v);
    }
  }

  /** An entry of the vtable, as the loop meets it. */
  ghost predicate IsEntry(v: VTable, e: Entry) {
    e.field.Some? ==> e.field.value in v.fields && v.fields[e.field.value] == e
  }

  lemma {:induction false} TableFieldSource(c: Context, p: Place, w: Walk, at: nat, end: nat, table: nat, v: VTable,
                                            entry: Entry, next: Option<nat>)
    requires IsTable(c.schema, table) && at < |c.binary| && IsTablePlace(p, at, table) && IsEntry(v, entry)
    requires entry.field.Some? ==> entry.field.value < |FieldsOf(c, table)|
    requires Tracked(c, w) && IsVTableOf(c, at, table, v)
    ensures From(c, p, w, TableField(c, w, at, end, table, v, entry, next).w)
    decreases |c.binary| - at, 3
  {
    hide Tracked, From, NonEmpty, Doomed, SchemaOk, IsVTableOf, OffsetField, FieldOffset, IsScalar, ScalarPiece,
      UnknownField, GetTypeSize, GetRegionType;
    TrackedParts(c, w);
    TrackedIsWalkable(c, w);
    FromNothing(c, p, w, w);
    var field := at + entry.offset;
    if entry.offset > 0 && field < |c.binary| && entry.field.Some?
       && !IsScalar(FieldsOf(c, table)[entry.field.value].typ.base) {
      FieldOfEntry(c, at, table, v, entry.field.value);
      OffsetFieldSource(c, p, w, at, field, table, entry.field.value, v);
    }
  }

  lemma {:induction false} TableFieldsSource(c: Context, p: Place, w: Walk, at: nat, end: nat, table: nat, v: VTable,
                                             fields: seq<Entry>, i: nat, added: seq<Region>)
    requires at < |c.binary| && i <= |fields| && IsTable(c.schema, table) && FieldsInSchema(c, table, fields)
    requires Tracked(c, w) && IsVTableOf(c, at, table, v) && IsTablePlace(p, at, table)
    requires forall e | e in fields :: IsEntry(v, e)
    ensures From(c, p, w, TableFieldsFrom(c, w, at, end, table, v, fields, i, added).w)
    decreases |c.binary| - at, 4, |fields| - i
  {
    hide Tracked, From, NonEmpty, Doomed, SchemaOk, IsVTableOf, TableField, IsTable, IsEntry;
    if i == |fields| {
      FromNothing(c, p, w, w);
    } else {
      assert fields[i] in fields;
      var next := if i + 1 < |fields| then Some(fields[i + 1].offset) else None;
      var r := TableField(c, w, at, end, table, v, fields[i], next);
      TableFieldSource(c, p, w, at, end, table, v, fields[i], next);
      TableFieldsSource(c, p, r.w, at, end, table, v, fields, i + 1, added + r.added);
      FromOn(c, p, w, r.w, TableFieldsFrom(c, r.w, at, end, table, v, fields, i + 1, added + r.added).w);
    }
  }

  /** Whatever the loop meets is an entry of the vtable, under the id of its field. */
  lemma ListedAreEntries(c: Context, at: nat, table: nat, v: VTable)
    requires IsVTableOf(c, at, table, v)
    ensures forall e | e in SortedEntries(v.fields) :: IsEntry(v, e)
  {
    hide SchemaOk, EntriesFor, StableSort, Listed, IsVTableOf;
    var list := Listed(v.fields, ID_LIMIT);
    StableSortSorts(list, ByDistance());
    EntriesOfVTable(c, at, table, v);
    VTableIsOfSchema(c, at, table, v);
    assert forall e | e in list :: exists id: nat :: id in v.fields && v.fields[id] == e;
    forall e | e in SortedEntries(v.fields)
      ensures IsEntry(v, e)
    {
      assert e in multiset(SortedEntries(v.fields)) && e in multiset(list) && e in list;
      var id: nat :| id in v.fields && v.fields[id] == e;
      EntryHasId(c, at, table, v, id);
    }
  }

  lemma EntryHasId(c: Context, at: nat, table: nat, v: VTable, id: nat)
    requires IsVTableOf(c, at, table, v) && id in v.fields
    ensures v.fields[id].field.Some? ==> v.fields[id].field.value == id
  {
    hide SchemaOk, EntriesFor;
    EntriesOfVTable(c, at, table, v);
    assert EntryOk(c.schema, table, id, v.fields[id]);
  }

  lemma {:induction false} TableSource(c: Context, w: Walk, at: nat, typ: SectionType, table: nat)
    requires Tracked(c, w) && IsTable(c.schema, table) && at < |c.binary|
    ensures Rooted(c, TablePlace(at, typ, table), w, BuildTable(c, w, at, typ, table).w)
    decreases |c.binary| - at, 6
  {
    hide Tracked, From, Rooted, NonEmpty, Doomed, IsVTableOf, Contains, EnterTable, TableFieldsFrom, SortedEntries,
      HeadRegion, IsTable, FieldsInSchema, IsEntry, TableEnd;
    TrackedParts(c, w);
    var place, f, r := TablePlace(at, typ, table), EnterTable(c, w, at, typ, table), BuildTable(c, w, at, typ, table).w;
    var w0 := Arrive(w, place);
    EnterKeeps(c, w, at, typ, table);
    if !Contains(w.sections, at) && f.vtable.Some? {
      var v := f.vtable.value;
      SortedInSchema(c, at, table, v);
      ListedAreEntries(c, at, table, v);
      var end := TableEnd(c.binary, at, v);
      TableFieldsSource(c, place, f.w, at, end, table, v, SortedEntries(v.fields), 0, []);
      var regions := FiledTable(c, w, at, typ, table, v);
      assert AfterFields(c, f.w, at, table, v)
        == TableFieldsFrom(c, f.w, at, end, table, v, SortedEntries(v.fields), 0, []);
      FromSame(c, place, w0, f.w, TableFieldsFrom(c, f.w, at, end, table, v, SortedEntries(v.fields), 0, []).w, r);
    } else {
      FromNothing(c, place, w0, r);
    }
    FromRooted(c, place, w, w0, r);
  }

  lemma EnterKeeps(c: Context, w: Walk, at: nat, typ: SectionType, table: nat)
    requires Tracked(c, w) && at < |c.binary| && IsTable(c.schema, table)
    ensures EnterTable(c, w, at, typ, table).w.arrivals == Arrive(w, TablePlace(at, typ, table)).arrivals
  {
    hide Tracked, Doomed, SchemaOk, Contains, Read, SizesOf, MakeVTable, EntriesFor, LeadOf, Remembered, HeadRegion;
    ArrivesContinues(c, w, TablePlace(at, typ, table));
  }

  // ---- The whole walk ---------------------------------------------------------------------------

  /**
   And nothing else is followed: every place that the walk comes to, but the root, is a link of a
   place that it came to before.
   */
  lemma EveryArrivalIsLinked(c: Context, rootTable: nat, isSizePrefixed: bool, i: nat)
    requires Walkable(c) && IsTable(c.schema, rootTable) && 0 < i < |Arrivals(c, rootTable, isSizePrefixed)|
    ensures LinkedWithin(c, Arrivals(c, rootTable, isSizePrefixed), 0, i)
  {
    hide Tracked, NonEmpty, VTablesStand, SchemaOk, RootLocation, WalkHeader, BuildTable, LinkedWithin;
    HeaderStands(c, isSizePrefixed);
    var w, root := WalkHeader(c, isSizePrefixed), RootLocation(c.binary, isSizePrefixed);
    if root < |c.binary| {
      TableSource(c, w, root, RootTable, rootTable);
    }
  }
}
