/**
 A binary on which the annotator reads a null field. Its root has two tables of one type, which
 share a vtable. The walk comes to the farther one first: there the word for the types of the
 vector of unions would be outside the binary, so that the vtable gets an entry without a field
 for it. Then it comes to the nearer one, where that word is inside.
 */
module NullWitness {
  import opened Codec
  import opened Wrappers
  import opened Annotated
  import opened Sorting
  import opened Gaps
  import opened Walks
  import NullFields

  const LINK := Field(Type(Obj, NoType, 1, 0), 0, false)

  /** The root table has two tables; each of those has a byte, and a vector of unions with its types. */
  const SCHEMA := Schema(
    [Object(false, 0, [LINK, LINK]),
     Object(false, 0, [Field(Type(UByte, NoType, -1, 0), 0, false), Field(Type(Vec, UType, 0, 0), 0, false),
                       Field(Type(Vec, Union, 0, 0), 0, false)])],
    [[Type(NoType, NoType, -1, 0), Type(Obj, NoType, 1, 0)]])

  /** All other bytes are zero. */
  function ByteAt(i: nat): byte {
    match i
    case 0 => 12   // root offset
    case 4 => 8    // vtable of the root
    case 6 => 12
    case 8 => 4
    case 10 => 8
    case 12 => 8   // root, with offsets to 52 and 36
    case 16 => 36
    case 20 => 16
    case 24 => 10  // vtable of both tables
    case 26 => 12
    case 28 => 24
    case 30 => 24
    case 32 => 4
    case 36 => 12  // the nearer table
    case 40 => 4
    case 44 => 1   // its vector of unions, of one element
    case 48 => 4
    case 52 => 28  // the farther table
    case 56 => 4
    case _ => 0    // 60: its vector of unions, which is empty; also the nearer one's word for the types
  }

  const BINARY: seq<byte> := seq(68, i requires 0 <= i < 68 => ByteAt(i))

  const INPUT := Context(SCHEMA, [0, 0], BINARY)

  // ---- The words ------------------------------------------------------------------------

  /** The word at `at` is inside the binary, and is `n`. */
  predicate Is(binary: seq<byte>, at: nat, k: nat, n: nat) {
    at + k <= |binary| && Get(binary, at, k) == n
  }

  predicate RootWords(binary: seq<byte>) {
    && |binary| == 68 && Is(binary, 0, 4, 12) && binary[4] == 8
    && Is(binary, 4, 2, 8) && Is(binary, 6, 2, 12) && Is(binary, 8, 2, 4) && Is(binary, 10, 2, 8)
    && Is(binary, 12, 4, 8) && Is(binary, 16, 4, 36) && Is(binary, 20, 4, 16)
  }

  predicate TableWords(binary: seq<byte>) {
    && |binary| == 68 && Is(binary, 24, 2, 10) && Is(binary, 26, 2, 12)
    && Is(binary, 28, 2, 24) && Is(binary, 30, 2, 24) && Is(binary, 32, 2, 4)
    && Is(binary, 36, 4, 12) && Is(binary, 40, 4, 4) && Is(binary, 44, 4, 1) && Is(binary, 48, 4, 4)
    && Is(binary, 52, 4, 28) && Is(binary, 56, 4, 4) && Is(binary, 60, 4, 0)
    && Is(binary, 60, 2, 0) && Is(binary, 64, 1, 0)
  }

  /** Only the first of the four bytes is not zero. */
  lemma FourBytes(binary: seq<byte>, at: nat, n: byte)
    requires at + 4 <= |binary|
    requires binary[at] == n && binary[at + 1] == 0 && binary[at + 2] == 0 && binary[at + 3] == 0
    ensures Is(binary, at, 4, n)
  {
    var w := binary[at..];
    UnrolledLoads(w);
    assert w[0..4] == binary[at..at + 4];
  }

  lemma TwoBytes(binary: seq<byte>, at: nat, n: byte)
    requires at + 2 <= |binary| && binary[at] == n && binary[at + 1] == 0
    ensures Is(binary, at, 2, n)
  {
    var w := binary[at..];
    UnrolledLoads(w);
    assert w[0..2] == binary[at..at + 2];
  }

  lemma OneByte(binary: seq<byte>, at: nat)
    requires at + 1 <= |binary|
    ensures Is(binary, at, 1, binary[at])
  {
    assert binary[at..at + 1][1..] == [];
  }

  lemma RootStands()
    ensures RootWords(BINARY)
  {
    hide Is;
    FourBytes(BINARY, 0, 12);
    TwoBytes(BINARY, 4, 8);
    TwoBytes(BINARY, 6, 12);
    TwoBytes(BINARY, 8, 4);
    TwoBytes(BINARY, 10, 8);
    FourBytes(BINARY, 12, 8);
    FourBytes(BINARY, 16, 36);
    FourBytes(BINARY, 20, 16);
  }

  lemma VTableStands()
    ensures Is(BINARY, 24, 2, 10) && Is(BINARY, 26, 2, 12)
    ensures Is(BINARY, 28, 2, 24) && Is(BINARY, 30, 2, 24) && Is(BINARY, 32, 2, 4)
  {
    hide Is;
    TwoBytes(BINARY, 24, 10);
    TwoBytes(BINARY, 26, 12);
    TwoBytes(BINARY, 28, 24);
    TwoBytes(BINARY, 30, 24);
    TwoBytes(BINARY, 32, 4);
  }

  lemma NearerStands()
    ensures Is(BINARY, 36, 4, 12) && Is(BINARY, 40, 4, 4) && Is(BINARY, 44, 4, 1) && Is(BINARY, 48, 4, 4)
  {
    hide Is;
    FourBytes(BINARY, 36, 12);
    FourBytes(BINARY, 40, 4);
    FourBytes(BINARY, 44, 1);
    FourBytes(BINARY, 48, 4);
  }

  lemma FartherStands()
    ensures Is(BINARY, 52, 4, 28) && Is(BINARY, 56, 4, 4)
    ensures Is(BINARY, 60, 4, 0) && Is(BINARY, 60, 2, 0) && Is(BINARY, 64, 1, 0)
  {
    hide Is;
    FourBytes(BINARY, 52, 28);
    FourBytes(BINARY, 56, 4);
    FourBytes(BINARY, 60, 0);
    TwoBytes(BINARY, 60, 0);
    OneByte(BINARY, 64);
  }

  lemma TablesStand()
    ensures TableWords(BINARY)
  {
    hide Is;
    VTableStands();
    NearerStands();
    FartherStands();
  }

  /** A word of a binary of this size is read. */
  lemma IsRead(binary: seq<byte>, at: nat, k: nat, n: nat)
    requires |binary| == 68 && 0 < k <= 8 && Is(binary, at, k, n)
    ensures Read(binary, at, k) == Some(n)
  {
  }

  lemma LeadIs(binary: seq<byte>, at: nat, n: nat)
    requires Is(binary, at, 4, n) && n <= at && at < 100
    ensures LeadOf(binary, at) == at - n
  {
    Widths();
  }

  lemma SizesAre(binary: seq<byte>, at: nat, size: nat, tableSize: nat)
    requires |binary| == 68 && Is(binary, at, 2, size) && Is(binary, at + 2, 2, tableSize)
    requires 4 <= size && at + size <= 68
    ensures SizesOf(binary, at) == Some((size, tableSize))
  {
    Widths();
    IsRead(binary, at, 2, size);
  }

  // ---- The vtables ------------------------------------------------------------------------

  /** The schema and the words, without the bytes. */
  ghost predicate Given(c: Context) {
    c.schema == SCHEMA && c.ranks == [0, 0] && RootWords(c.binary) && TableWords(c.binary)
  }

  lemma GivenIsWalkable(c: Context)
    requires Given(c)
    ensures Walkable(c) && IsTable(c.schema, 0) && IsTable(c.schema, 1)
    ensures |FieldsOf(c, 0)| == 2 && |FieldsOf(c, 1)| == 3
    ensures FieldsOf(c, 0)[0] == LINK && FieldsOf(c, 0)[1] == LINK
    ensures FieldsOf(c, 1)[2].typ == Type(Vec, Union, 0, 0) && !FieldsOf(c, 1)[0].required
      && !FieldsOf(c, 1)[1].required
  {
    hide RootWords, TableWords;
    assert |c.binary| == 68 by { GivenIsSmall(c); }
  }

  lemma GivenIsSmall(c: Context)
    requires Given(c)
    ensures |c.binary| == 68
  {
  }

  const ROOT_ENTRIES := map[0 := Entry(Some(0), 4), 1 := Entry(Some(1), 8)]

  const ROOT_VTABLE := VTable(0, 12, ROOT_ENTRIES, 12)

  /** The second entry belongs to a field of the schema, but does not refer to it. */
  const TABLE_ENTRIES := map[1 := Entry(None, 24), 2 := Entry(Some(2), 4)]

  const TABLE_VTABLE := VTable(1, 52, TABLE_ENTRIES, 12)

  lemma RootEntries(c: Context)
    requires Given(c)
    ensures Walkable(c) && IsTable(c.schema, 0) && SizesOf(c.binary, 4) == Some((8, 12))
    ensures MakeVTable(c, 4, 0, 12) == ROOT_VTABLE
    ensures EntriesFor(c, 4, 0, 12).regions != [] && End(EntriesFor(c, 4, 0, 12).regions) == 12
  {
    hide Read, Is, SchemaOk, Word, SizesOf;
    GivenIsWalkable(c);
    SizesAre(c.binary, 4, 8, 12);
    IsRead(c.binary, 8, 2, 4);
    IsRead(c.binary, 10, 2, 8);
    assert KnownUpTo(c, 4, 8, 0, 12, 0) == Known([], map[], 0);
    var r0, r1 := Region(8, 2, VOffset, 0, 0), Region(10, 2, VOffset, 0, 0);
    assert KnownUpTo(c, 4, 8, 0, 12, 1) == Known([r0], map[0 := Entry(Some(0), 4)], 1);
    assert KnownUpTo(c, 4, 8, 0, 12, 2) == Known([r0, r1], ROOT_ENTRIES, 2);
  }

  const R28 := Region(28, 2, VOffset, 0, 0)
  const R30 := Region(30, 2, VOffset, 0, 0)
  const R32 := Region(32, 2, VOffset, 0, 0)

  /** The entries of the schema's fields: only the last is within reach. */
  const TABLE_KNOWN := Known([R28, R30, R32], map[2 := Entry(Some(2), 4)], 1)

  lemma TableKnown(c: Context)
    requires Given(c) && Walkable(c) && IsTable(c.schema, 1)
    ensures KnownUpTo(c, 24, 10, 1, 52, 3) == TABLE_KNOWN
  {
    hide Read, Is, SchemaOk;
    GivenIsSmall(c);
    IsRead(c.binary, 28, 2, 24);
    IsRead(c.binary, 30, 2, 24);
    IsRead(c.binary, 32, 2, 4);
    assert KnownUpTo(c, 24, 10, 1, 52, 0) == Known([], map[], 0);
    assert KnownUpTo(c, 24, 10, 1, 52, 1) == Known([R28], map[], 0);
    assert KnownUpTo(c, 24, 10, 1, 52, 2) == Known([R28, R30], map[], 0);
  }

  lemma TableUnknown(c: Context)
    requires Given(c) && Walkable(c) && |c.binary| == 68
    ensures UnknownUpTo(c, 24, TABLE_KNOWN, 3) == Known([R30, R32], TABLE_ENTRIES, 1)
  {
    hide Read, Is, SchemaOk, IsTable;
    IsRead(c.binary, 30, 2, 24);
    IsRead(c.binary, 32, 2, 4);
    assert UnknownUpTo(c, 24, TABLE_KNOWN, 1) == Known([], TABLE_KNOWN.fields, 1);
    assert UnknownUpTo(c, 24, TABLE_KNOWN, 2) == Known([R30], TABLE_ENTRIES, 1);
  }

  lemma TableEntries(c: Context)
    requires Given(c)
    ensures Walkable(c) && IsTable(c.schema, 1) && SizesOf(c.binary, 24) == Some((10, 12))
    ensures MakeVTable(c, 24, 1, 52) == TABLE_VTABLE
    ensures EntriesFor(c, 24, 1, 52).regions != [] && End(EntriesFor(c, 24, 1, 52).regions) == 34
  {
    hide Read, Is, SchemaOk, Word, SizesOf, KnownUpTo, UnknownUpTo;
    GivenIsWalkable(c);
    GivenIsSmall(c);
    SizesAre(c.binary, 24, 10, 12);
    TableKnown(c);
    TableUnknown(c);
  }

  // ---- The walk -----------------------------------------------------------------------------

  /** Where the sections stand, and where each of them ends. */
  ghost predicate EndsAre(w: Walk, ends: map<nat, nat>) {
    && w.sections.Keys == ends.Keys
    && forall k | k in ends :: w.sections[k].regions != [] && End(w.sections[k].regions) == ends[k]
  }

  /** A place behind the end of the last section in front of it is new. */
  lemma IsNew(w: Walk, ends: map<nat, nat>, at: nat, k: nat)
    requires EndsAre(w, ends) && k in ends && k < at && ends[k] <= at && forall j | j in ends :: j <= k || at < j
    ensures NonEmpty(w.sections) && !Contains(w.sections, at) && at !in w.sections
  {
    assert k in w.sections.Keys && Floor(w.sections.Keys, at) == Some(k);
  }

  lemma Files(w: Walk, ends: map<nat, nat>, at: nat, s: Section)
    requires EndsAre(w, ends) && at !in ends && s.regions != []
    ensures EndsAre(AddTo(w, at, s), ends[at := End(s.regions)]) && AddTo(w, at, s).sections == w.sections[at := s]
  {
  }

  lemma HeaderEnds(c: Context)
    requires Given(c) && Walkable(c)
    ensures EndsAre(WalkHeader(c, false), map[0 := 4]) && WalkHeader(c, false).vtables == map[]
    ensures RootLocation(c.binary, false) == 12
  {
    hide SchemaOk, TableWords, Tracked, Doomed;
  }

  /** A vtable that is made for its first table. */
  lemma VTableIsMade(c: Context, w: Walk, ends: map<nat, nat>, at: nat, typ: SectionType, table: nat, lead: nat,
                     last: nat, v: VTable, end: nat)
    requires at < |c.binary| && IsTable(c.schema, table) && Tracked(c, w)
    requires EndsAre(w, ends) && last in ends && last < lead && ends[last] <= lead && lead !in w.vtables
    requires forall j | j in ends :: j <= last || lead < j
    requires Read(c.binary, at, 4).Some? && LeadOf(c.binary, at) == lead && SizesOf(c.binary, lead).Some?
    requires SchemaOk(c.schema, c.ranks) && MakeVTable(c, lead, table, at) == v
    requires End(EntriesFor(c, lead, table, at).regions) == end
    ensures var f := FindVTable(c, w, at, typ, table);
      && f.vtable == Some(v) && EndsAre(f.w, ends[lead := end]) && f.w.vtables == w.vtables[lead := [v]]
  {
    hide Tracked, Doomed, SchemaOk, MakeVTable, EntriesFor, Contains, Read, SizesOf, LeadOf, End;
    IsNew(w, ends, lead, last);
    assert SizesOf(c.binary, lead).value.0 >= 4;
    var s := Section(VTableSection, EntriesFor(c, lead, table, at).regions);
    Files(w, ends, lead, s);
    var w1 := w.(vtables := w.vtables[lead := []]);
    assert KnownAt(w, lead) == [] && KnownAt(w1, lead) == [];
    assert w1.vtables[lead := [v]] == w.vtables[lead := [v]];
    FiledKeepsTracked(c, w, lead, [], w.sections);
    assert Tracked(c, w1) && w1 == w.(vtables := w.vtables[lead := KnownAt(w, lead)], sections := w.sections);
    assert BuildVTable(c, w1, lead, table, at).vtable == Some(v);
    assert BuildVTable(c, w1, lead, table, at).w.sections == w.sections[lead := s];
    assert [] + [v] == [v];
  }

  /** A vtable that has been made before. */
  lemma VTableIsShared(c: Context, w: Walk, at: nat, typ: SectionType, table: nat, lead: nat, v: VTable)
    requires at < |c.binary| && IsTable(c.schema, table) && Tracked(c, w) && lead < |c.binary|
    requires Read(c.binary, at, 4).Some? && LeadOf(c.binary, at) == lead
    requires lead in w.vtables && w.vtables[lead] == [v] && v.table == table
    ensures FindVTable(c, w, at, typ, table) == Found(w, Some(v))
  {
    hide Tracked, Doomed, SchemaOk, Contains, Read, LeadOf, BuildVTable;
    assert w.vtables[lead := [v]] == w.vtables;
  }

  lemma {:induction false} ListedStops(fields: map<nat, Entry>, m: nat, n: nat)
    requires m <= n && forall id: nat | id in fields :: id < m
    ensures Listed(fields, n) == Listed(fields, m)
    decreases n, fields
  {
    if m < n {
      ListedStops(fields, m, n - 1);
    }
  }

  lemma RootListed()
    ensures Listed(ROOT_ENTRIES, ID_LIMIT) == [Entry(Some(0), 4), Entry(Some(1), 8)]
  {
    var a, b := Entry(Some(0), 4), Entry(Some(1), 8);
    ListedStops(ROOT_ENTRIES, 2, ID_LIMIT);
    assert Listed(ROOT_ENTRIES, 0) == [] && Listed(ROOT_ENTRIES, 1) == [a] && Listed(ROOT_ENTRIES, 2) == [a, b];
  }

  lemma RootSorted()
    ensures SortedEntries(ROOT_ENTRIES) == [Entry(Some(0), 4), Entry(Some(1), 8)]
  {
    hide Listed, StableSort;
    RootListed();
    StableSortKeeps([Entry(Some(0), 4), Entry(Some(1), 8)], ByDistance());
  }

  lemma TableListed()
    ensures Listed(TABLE_ENTRIES, ID_LIMIT) == [Entry(None, 24)] + [Entry(Some(2), 4)]
  {
    var a, b := Entry(None, 24), Entry(Some(2), 4);
    ListedStops(TABLE_ENTRIES, 3, ID_LIMIT);
    assert Listed(TABLE_ENTRIES, 0) == [] && Listed(TABLE_ENTRIES, 1) == [] && Listed(TABLE_ENTRIES, 2) == [a];
    assert Listed(TABLE_ENTRIES, 3) == [a] + [b];
  }

  lemma TableSorted()
    ensures SortedEntries(TABLE_ENTRIES) == [Entry(Some(2), 4), Entry(None, 24)]
  {
    hide Listed, StableSort;
    TableListed();
    var a, b := Entry(None, 24), Entry(Some(2), 4);
    StableSortKeeps([a], ByDistance());
    SortAppends([a], b, [], [a], ByDistance());
    assert [] + [b] + [a] == [b, a] && [] + [a] == [a];
  }

  const AFTER_ROOT: map<nat, nat> := map[0 := 4, 4 := 12]

  const AFTER_VTABLE: map<nat, nat> := AFTER_ROOT[24 := 34]

  const AFTER_FARTHER: map<nat, nat> := AFTER_VTABLE[60 := 68][52 := 64]

  /** Without a field in the entry for the types, the walk stays as it is. */
  lemma NullTypes(c: Context, w: Walk, vector: nat, length: nat, enumId: int, entry: Entry, field: nat, start: nat)
    requires Tracked(c, w) && vector < |c.binary| && vector < start && entry.field.None?
    ensures var p := TypedUnions(c, w, vector, length, enumId, entry, field, start);
      p.w == w && (Read(c.binary, field, 2).None? ==> p.added == [Rest(c.binary, start)])
  {
    hide Tracked, Doomed, Read, NullUnions, UnionsFrom, Rest;
  }

  /** The vector of unions of a table has no field in the entry for its types. */
  lemma UnionsOf(c: Context, w: Walk, vector: nat, length: nat, parent: nat)
    requires Given(c) && vector < 68 && IsTable(c.schema, 1) && length == Word(c.binary, vector, 4)
    requires Tracked(c, w) && IsVTableOf(c, parent, 1, TABLE_VTABLE)
    ensures IsUnionVector(c, vector, length, 1, 2)
    ensures var p := UnionVector(c, w, vector, length, 1, 2, parent, TABLE_VTABLE);
      && p.w == w.(visits := w.visits + [Visit(parent, 1, 2, vector, 52)])
      && (Read(c.binary, parent + 24, 2).None? ==> p.added == [Rest(c.binary, vector + 4)])
  {
    hide Given, Tracked, Doomed, IsVTableOf, Read, Word, TypedUnions, FieldsOf, IsTable, Rest;
    GivenIsWalkable(c);
    GivenIsSmall(c);
    VisitContinues(c, w, vector, length, 1, 2, parent, TABLE_VTABLE);
    var w1 := w.(visits := w.visits + [Visit(parent, 1, 2, vector, 52)]);
    NullTypes(c, w1, vector, length, 0, Entry(None, 24), parent + 24, vector + 4);
  }

  lemma ElementsOf(c: Context, w: Walk, vector: nat, length: nat, parent: nat)
    requires Given(c) && Tracked(c, w) && vector < 68 && IsVTableOf(c, parent, 1, TABLE_VTABLE)
    requires IsTable(c.schema, 1) && |FieldsOf(c, 1)| == 3 && FieldsOf(c, 1)[2].typ == Type(Vec, Union, 0, 0)
    requires length == Word(c.binary, vector, 4)
    ensures IsUnionVector(c, vector, length, 1, 2)
    ensures Elements(c, w, vector, length, 1, 2, parent, TABLE_VTABLE)
      == UnionVector(c, w, vector, length, 1, 2, parent, TABLE_VTABLE)
  {
    hide Given, Tracked, Doomed, IsVTableOf, Word, UnionVector, FieldsOf;
    GivenIsWalkable(c);
    GivenIsSmall(c);
    UnionsOf(c, w, vector, length, parent);
    ElementsByType(c, w, vector, length, 1, 2, parent, TABLE_VTABLE);
  }

  /** A vector of unions of at most one element, at a new place. */
  lemma VectorOf(c: Context, w: Walk, ends: map<nat, nat>, vector: nat, last: nat, length: nat, parent: nat)
    requires Given(c) && Tracked(c, w) && vector + 4 + 4 * length <= 68 && Is(c.binary, vector, 4, length)
    requires IsTable(c.schema, 1) && |FieldsOf(c, 1)| == 3 && IsVTableOf(c, parent, 1, TABLE_VTABLE)
    requires EndsAre(w, ends) && last in ends && last < vector && ends[last] <= vector
    requires forall j | j in ends :: j <= last || vector < j
    ensures IsUnionVector(c, vector, length, 1, 2)
    ensures var p := BuildVector(c, w, vector, 1, 2, parent, TABLE_VTABLE);
      && p.w.visits == w.visits + [Visit(parent, 1, 2, vector, 52)]
      && (Read(c.binary, parent + 24, 2).None? ==>
           p.w.vtables == w.vtables && EndsAre(p.w, ends[vector := vector + 4 + RemainingBytes(c.binary, vector + 4)]))
  {
    hide Given, Tracked, Doomed, IsVTableOf, UnionVector, Elements, FieldsOf, Contains, EndsAre, Get, IsTable;
    GivenIsWalkable(c);
    GivenIsSmall(c);
    IsRead(c.binary, vector, 4, length);
    IsNew(w, ends, vector, last);
    ArrivesContinues(c, w, VectorPlace(vector, 1, 2, parent, 52));
    var w0 := Arrive(w, VectorPlace(vector, 1, 2, parent, 52));
    UnionsOf(c, w0, vector, length, parent);
    ElementsOf(c, w0, vector, length, parent);
    var p := UnionVector(c, w0, vector, length, 1, 2, parent, TABLE_VTABLE);
    if Read(c.binary, parent + 24, 2).None? {
      var s := Section(VectorSection, [Region(vector, 4, Uint32, 0, 0)] + p.added);
      SameEnds(w, p.w, ends);
      Files(p.w, ends, vector, s);
    }
  }

  lemma SameEnds(w: Walk, w1: Walk, ends: map<nat, nat>)
    requires EndsAre(w, ends) && w1.sections == w.sections
    ensures EndsAre(w1, ends)
  {
  }

  /** The vector of unions of a table is followed. */
  lemma FollowsVector(c: Context, w: Walk, at: nat, end: nat, next: Option<nat>, n: nat)
    requires Given(c) && IsTable(c.schema, 1) && |FieldsOf(c, 1)| == 3 && 0 < n
    requires Tracked(c, w) && IsVTableOf(c, at, 1, TABLE_VTABLE) && at + 4 + n < 68 && Is(c.binary, at + 4, 4, n)
    ensures var p := BuildVector(c, w, at + 4 + n, 1, 2, at, TABLE_VTABLE);
      TableField(c, w, at, end, 1, TABLE_VTABLE, Entry(Some(2), 4), next)
        == WithWord(p, Region(at + 4, 4, UOffset, 0, at + 4 + n))
  {
    hide Given, Tracked, Doomed, Continues, IsVTableOf, BuildVector, FieldsOf, Is, Read, IsTable, WithWord, Word,
      UnionField, UnknownField, ScalarPiece, BuildTable, BuildString;
    GivenIsWalkable(c);
    GivenIsSmall(c);
    IsRead(c.binary, at + 4, 4, n);
    var p, word := BuildVector(c, w, at + 4 + n, 1, 2, at, TABLE_VTABLE), Region(at + 4, 4, UOffset, 0, at + 4 + n);
    assert FollowField(c, w, at, word, 1, 2, TABLE_VTABLE) == WithWord(p, word);
    assert OffsetField(c, w, at, at + 4, 1, 2, TABLE_VTABLE) == WithWord(p, word);
  }

  /** A table of the root is followed. */
  lemma FollowsTable(c: Context, w: Walk, id: nat, distance: nat, end: nat, next: Option<nat>, n: nat)
    requires Given(c) && id < 2 && IsTable(c.schema, 0) && IsTable(c.schema, 1) && |FieldsOf(c, 0)| == 2
    requires Tracked(c, w) && IsVTableOf(c, 12, 0, ROOT_VTABLE) && 0 < n && 0 < distance && 12 + distance + n < 68
    requires Is(c.binary, 12 + distance, 4, n)
    ensures var p := BuildTable(c, w, 12 + distance + n, TableSection, 1);
      TableField(c, w, 12, end, 0, ROOT_VTABLE, Entry(Some(id), distance), next)
        == WithWord(p, Region(12 + distance, 4, UOffset, 0, 12 + distance + n))
  {
    hide Given, Tracked, Doomed, Continues, IsVTableOf, BuildTable, FieldsOf, Is, Read, WithWord, IsTable;
    GivenIsWalkable(c);
    GivenIsSmall(c);
    TablesAreNotInline(c);
    IsRead(c.binary, 12 + distance, 4, n);
    var p := BuildTable(c, w, 12 + distance + n, TableSection, 1);
    var word := Region(12 + distance, 4, UOffset, 0, 12 + distance + n);
    assert FieldsOf(c, 0)[id].typ == Type(Obj, NoType, 1, 0);
    assert FollowField(c, w, 12, word, 0, id, ROOT_VTABLE) == WithWord(p, word);
    assert OffsetField(c, w, 12, 12 + distance, 0, id, ROOT_VTABLE) == WithWord(p, word);
  }

  lemma TablesAreNotInline(c: Context)
    requires Given(c)
    ensures |c.schema.objects| == 2 && !c.schema.objects[1].isStruct
  {
  }

  lemma NextField(c: Context, w: Walk, at: nat, end: nat, table: nat, v: VTable, fields: seq<Entry>, i: nat,
                  added: seq<Region>)
    requires at < |c.binary| && i <= |fields| && IsTable(c.schema, table) && FieldsInSchema(c, table, fields)
    requires Tracked(c, w) && IsVTableOf(c, at, table, v)
    ensures i == |fields| ==> TableFieldsFrom(c, w, at, end, table, v, fields, i, added) == Progress(w, added)
    ensures i < |fields| ==>
      var next := if i + 1 < |fields| then Some(fields[i + 1].offset) else None;
      assert fields[i] in fields;
      var p := TableField(c, w, at, end, table, v, fields[i], next);
      TableFieldsFrom(c, w, at, end, table, v, fields, i, added)
        == TableFieldsFrom(c, p.w, at, end, table, v, fields, i + 1, added + p.added)
  {
    hide Tracked, Doomed, IsVTableOf, TableField, IsTable, FieldsInSchema;
  }

  lemma FilledFrom(c: Context, w: Walk, at: nat, typ: SectionType, table: nat, v: VTable)
    requires at < |c.binary| && IsTable(c.schema, table) && FieldsInSchema(c, table, SortedEntries(v.fields))
    requires Tracked(c, w) && IsVTableOf(c, at, table, v)
    ensures var end := TableEnd(c.binary, at, v);
      var p := TableFieldsFrom(c, w, at, end, table, v, SortedEntries(v.fields), 0, []);
      FillTable(c, w, at, typ, table, v) == FileTable(c, p.w, at, typ, end, p.added)
  {
    hide Tracked, Doomed, IsVTableOf, TableFieldsFrom, IsTable, FieldsInSchema, SortedEntries, FileTable, TableEnd;
  }

  /** The fields of a table of the farther or the nearer kind: the vector, and an entry that is passed over. */
  lemma TableIsFilled(c: Context, w: Walk, at: nat, n: nat)
    requires Given(c) && IsTable(c.schema, 1) && |FieldsOf(c, 1)| == 3 && 0 < n
    requires Tracked(c, w) && IsVTableOf(c, at, 1, TABLE_VTABLE) && at + 4 + n < 68 && Is(c.binary, at + 4, 4, n)
    ensures var p, f := BuildVector(c, w, at + 4 + n, 1, 2, at, TABLE_VTABLE),
                        FillTable(c, w, at, TableSection, 1, TABLE_VTABLE);
      && (Doomed(c, p.w.visits) ==> Doomed(c, f.w.visits))
      && (at == 52 ==> f == FileTable(c, p.w, 52, TableSection, 64, [Region(56, 4, UOffset, 0, 56 + n)]))
  {
    hide Given, Tracked, Doomed, IsVTableOf, BuildVector, FieldsOf, Is, SortedEntries, FileTable, FillTable, TableField,
      IsTable, TableFieldsFrom, FieldsInSchema;
    GivenIsSmall(c);
    TableSorted();
    SortedInSchema(c, at, 1, TABLE_VTABLE);
    FilledFrom(c, w, at, TableSection, 1, TABLE_VTABLE);
    var fields, end := [Entry(Some(2), 4), Entry(None, 24)], TableEnd(c.binary, at, TABLE_VTABLE);
    FollowsVector(c, w, at, end, Some(24), n);
    NextField(c, w, at, end, 1, TABLE_VTABLE, fields, 0, []);
    var p := TableField(c, w, at, end, 1, TABLE_VTABLE, fields[0], Some(24));
    if at == 52 {
      assert [] + p.added == p.added && p.added + [] == p.added;
      PassedOver(c, p.w, end);
      NextField(c, p.w, at, end, 1, TABLE_VTABLE, fields, 1, p.added);
      NextField(c, p.w, at, end, 1, TABLE_VTABLE, fields, 2, p.added);
    }
  }

  /** In the farther table, the entry for the types is outside the binary. */
  lemma PassedOver(c: Context, w: Walk, end: nat)
    requires Given(c) && IsTable(c.schema, 1) && |c.binary| == 68
    requires Tracked(c, w) && IsVTableOf(c, 52, 1, TABLE_VTABLE)
    ensures TableField(c, w, 52, end, 1, TABLE_VTABLE, Entry(None, 24), None) == Progress(w, [])
  {
    hide Given, Tracked, Doomed, IsVTableOf, IsTable;
  }

  lemma BuiltNew(c: Context, w: Walk, at: nat, typ: SectionType, table: nat, v: VTable)
    requires at < |c.binary| && IsTable(c.schema, table)
    requires Tracked(c, w) && NonEmpty(w.sections) && !Contains(w.sections, at)
    requires EnterTable(c, w, at, typ, table).vtable == Some(v)
    ensures var w1 := EnterTable(c, w, at, typ, table).w;
      Tracked(c, w1) && IsVTableOf(c, at, table, v)
        && BuildTable(c, w, at, typ, table) == FillTable(c, w1, at, typ, table, v)
  {
    hide Tracked, Doomed, IsVTableOf, EnterTable, FillTable, Contains;
  }

  /** The vtable of the tables is the only one at its place. */
  predicate Remembers(w: Walk, v: VTable) {
    24 in w.vtables && w.vtables[24] == [v]
  }

  lemma FartherVTable(c: Context, w: Walk)
    requires Given(c) && |c.binary| == 68 && IsTable(c.schema, 1)
    requires Tracked(c, w) && EndsAre(w, AFTER_ROOT) && w.vtables == map[4 := [ROOT_VTABLE]]
    ensures var f := EnterTable(c, w, 52, TableSection, 1);
      f.vtable == Some(TABLE_VTABLE) && EndsAre(f.w, AFTER_VTABLE) && Remembers(f.w, TABLE_VTABLE)
  {
    hide Tracked, Doomed, Is, EndsAre, FindVTable, LeadOf, Read, SizesOf, MakeVTable, EntriesFor, SchemaOk, IsTable;
    TableEntries(c);
    IsRead(c.binary, 52, 4, 28);
    LeadIs(c.binary, 52, 28);
    ArrivesContinues(c, w, TablePlace(52, TableSection, 1));
    var w0 := Arrive(w, TablePlace(52, TableSection, 1));
    SameEnds(w, w0, AFTER_ROOT);
    VTableIsMade(c, w0, AFTER_ROOT, 52, TableSection, 1, 24, 4, TABLE_VTABLE, 34);
  }

  /** What the walk has after the vector of unions of the farther table, which is empty. */
  ghost predicate VectorBuilt(c: Context, w: Walk)
    requires 60 < |c.binary| && IsTable(c.schema, 1) && |FieldsOf(c, 1)| == 3
    requires Tracked(c, w) && IsVTableOf(c, 52, 1, TABLE_VTABLE)
  {
    hide *;
    var p := BuildVector(c, w, 60, 1, 2, 52, TABLE_VTABLE);
    EndsAre(p.w, AFTER_VTABLE[60 := 68]) && p.w.vtables == w.vtables
  }

  lemma EmptyVector(c: Context, w: Walk)
    requires |c.binary| == 68 && IsTable(c.schema, 1) && |FieldsOf(c, 1)| == 3 && Given(c)
    requires Tracked(c, w) && IsVTableOf(c, 52, 1, TABLE_VTABLE) && EndsAre(w, AFTER_VTABLE)
    ensures VectorBuilt(c, w)
  {
    hide Tracked, Doomed, Continues, IsVTableOf, Is, EndsAre, BuildVector, FieldsOf, IsTable;
    VectorOf(c, w, AFTER_VTABLE, 60, 24, 0, 52);
  }

  lemma FartherFiles(c: Context, w: Walk)
    requires Given(c) && |c.binary| == 68 && Tracked(c, w) && EndsAre(w, AFTER_VTABLE[60 := 68])
    ensures var p := FileTable(c, w, 52, TableSection, 64, [Region(56, 4, UOffset, 0, 60)]);
      EndsAre(p.w, AFTER_FARTHER) && p.w.vtables == w.vtables
  {
    hide Given, Tracked, Doomed, EndsAre, HeadRegion;
    var regions := [HeadRegion(c.binary, 52)] + [Region(56, 4, UOffset, 0, 60)];
    Files(w, AFTER_VTABLE[60 := 68], 52, Section(TableSection, PadTable(64, regions)));
  }

  /** What the walk has after the farther table. */
  ghost predicate FartherBuilt(c: Context, w: Walk)
    requires 52 < |c.binary| && IsTable(c.schema, 1) && Tracked(c, w)
  {
    hide *;
    var p := BuildTable(c, w, 52, TableSection, 1);
    EndsAre(p.w, AFTER_FARTHER) && Remembers(p.w, TABLE_VTABLE)
  }

  /** The farther table, whose vtable is made for it; its vector of unions is empty. */
  lemma FartherTable(c: Context, w: Walk)
    requires |c.binary| == 68 && IsTable(c.schema, 1) && |FieldsOf(c, 1)| == 3 && Given(c)
    requires EndsAre(w, AFTER_ROOT) && w.vtables == map[4 := [ROOT_VTABLE]] && Tracked(c, w)
    ensures FartherBuilt(c, w)
  {
    hide Tracked, Doomed, IsVTableOf, Is, EndsAre, FieldsOf, IsTable, EnterTable, BuildTable, FillTable, BuildVector,
      FileTable, Contains;
    IsNew(w, AFTER_ROOT, 52, 4);
    FartherVTable(c, w);
    BuiltNew(c, w, 52, TableSection, 1, TABLE_VTABLE);
    var w1 := EnterTable(c, w, 52, TableSection, 1).w;
    EmptyVector(c, w1);
    TableIsFilled(c, w1, 52, 4);
    FartherFiles(c, BuildVector(c, w1, 60, 1, 2, 52, TABLE_VTABLE).w);
  }

  /** In the nearer table, the null field is read. */
  lemma NearerIsDangerous(c: Context)
    requires Given(c) && |c.binary| == 68 && IsTable(c.schema, 1) && IsVTableOf(c, 36, 1, TABLE_VTABLE)
    requires IsUnionVector(c, 44, 1, 1, 2)
    ensures Danger(c, Visit(36, 1, 2, 44, 52))
  {
    hide Is, Read, IsVTableOf, Danger, IsTable, IsUnionVector;
    IsRead(c.binary, 60, 2, 0);
    IsRead(c.binary, 48, 4, 4);
    IsRead(c.binary, 64, 1, 0);
    GivenIsWalkable(c);
    assert Target(c.binary, 48) == Some(52) && U64(64 + 0) == 64;
    assert ReadsNull(c.binary, Entry(None, 24), 60, 1, 48);
    DangerMeans(c, 44, 1, 1, 2, 36, TABLE_VTABLE);
  }

  lemma NearerTable(c: Context, w: Walk)
    requires |c.binary| == 68 && IsTable(c.schema, 1) && |FieldsOf(c, 1)| == 3 && Given(c)
    requires Tracked(c, w) && EndsAre(w, AFTER_FARTHER) && Remembers(w, TABLE_VTABLE)
    ensures Doomed(c, BuildTable(c, w, 36, TableSection, 1).w.visits)
  {
    hide Tracked, Doomed, IsVTableOf, Is, EndsAre, FieldsOf, IsTable, FindVTable, BuildTable, FillTable, BuildVector,
      Contains, LeadOf, Read, ReadsNull;
    IsNew(w, AFTER_FARTHER, 36, 24);
    IsRead(c.binary, 36, 4, 12);
    LeadIs(c.binary, 36, 12);
    ArrivesContinues(c, w, TablePlace(36, TableSection, 1));
    var w0 := Arrive(w, TablePlace(36, TableSection, 1));
    SameEnds(w, w0, AFTER_FARTHER);
    VTableIsShared(c, w0, 36, TableSection, 1, 24, TABLE_VTABLE);
    BuiltNew(c, w, 36, TableSection, 1, TABLE_VTABLE);
    VectorOf(c, w0, AFTER_FARTHER, 44, 24, 1, 36);
    NearerIsDangerous(c);
    IsDoomed(c, w.visits, Visit(36, 1, 2, 44, 52));
    TableIsFilled(c, w0, 36, 4);
  }

  lemma IsDoomed(c: Context, visits: seq<Visit>, v: Visit)
    requires Danger(c, v)
    ensures Doomed(c, visits + [v])
  {
    hide Danger;
    assert v in visits + [v];
  }

  lemma RootVTable(c: Context, w: Walk)
    requires Given(c) && |c.binary| == 68 && IsTable(c.schema, 0)
    requires Tracked(c, w) && EndsAre(w, map[0 := 4]) && w.vtables == map[]
    ensures var f := EnterTable(c, w, 12, RootTable, 0);
      f.vtable == Some(ROOT_VTABLE) && EndsAre(f.w, AFTER_ROOT) && f.w.vtables == map[4 := [ROOT_VTABLE]]
  {
    hide Tracked, Doomed, Is, EndsAre, FindVTable, LeadOf, Read, SizesOf, MakeVTable, EntriesFor, SchemaOk, IsTable;
    RootEntries(c);
    IsRead(c.binary, 12, 4, 8);
    LeadIs(c.binary, 12, 8);
    ArrivesContinues(c, w, TablePlace(12, RootTable, 0));
    var w0 := Arrive(w, TablePlace(12, RootTable, 0));
    SameEnds(w, w0, map[0 := 4]);
    VTableIsMade(c, w0, map[0 := 4], 12, RootTable, 0, 4, 0, ROOT_VTABLE, 12);
  }

  lemma RootFails(c: Context, w: Walk)
    requires Given(c) && |c.binary| == 68 && IsTable(c.schema, 0) && IsTable(c.schema, 1)
    requires |FieldsOf(c, 0)| == 2 && |FieldsOf(c, 1)| == 3
    requires Tracked(c, w) && EndsAre(w, map[0 := 4]) && w.vtables == map[]
    ensures Doomed(c, BuildTable(c, w, 12, RootTable, 0).w.visits)
  {
    hide Tracked, Doomed, IsVTableOf, Is, EndsAre, FieldsOf, IsTable, EnterTable, BuildTable, FillTable, Contains,
      FieldsInSchema, TableFieldsFrom, TableField, SortedEntries;
    IsNew(w, map[0 := 4], 12, 0);
    RootVTable(c, w);
    BuiltNew(c, w, 12, RootTable, 0, ROOT_VTABLE);
    var w1 := EnterTable(c, w, 12, RootTable, 0).w;
    SortedInSchema(c, 12, 0, ROOT_VTABLE);
    FilledFrom(c, w1, 12, RootTable, 0, ROOT_VTABLE);
    RootSorted();
    var fields, end := [Entry(Some(0), 4), Entry(Some(1), 8)], TableEnd(c.binary, 12, ROOT_VTABLE);
    FollowsTable(c, w1, 0, 4, end, Some(8), 36);
    FartherTable(c, w1);
    NextField(c, w1, 12, end, 0, ROOT_VTABLE, fields, 0, []);
    var p := TableField(c, w1, 12, end, 0, ROOT_VTABLE, fields[0], Some(8));
    FollowsTable(c, p.w, 1, 8, end, None, 16);
    NearerTable(c, p.w);
    NextField(c, p.w, 12, end, 0, ROOT_VTABLE, fields, 1, [] + p.added);
  }

  /** On this binary the annotator reads the null field. */
  lemma NullFieldIsRead()
    ensures Walkable(INPUT) && IsTable(SCHEMA, 0)
    ensures exists v :: v in WalkAll(INPUT, 0, false).w.visits && Danger(INPUT, v)
    ensures !NullFields.Steady(INPUT)
  {
    hide Tracked, Doomed, FieldsOf, SchemaOk, RootWords, TableWords, BuildTable, WalkHeader, EndsAre, Danger,
      NullFields.Steady;
    RootStands();
    TablesStand();
    GivenIsWalkable(INPUT);
    HeaderEnds(INPUT);
    RootFails(INPUT, WalkHeader(INPUT, false));
    DoomedMeans(INPUT, WalkAll(INPUT, 0, false).w.visits);
    if NullFields.Steady(INPUT) {
      NullFields.SteadyNeverFails(INPUT, 0, false);
    }
  }
}
