/**
 When the annotator reads a null field: never, if tables that share a vtable agree on whether the
 types of their vectors of unions are within reach; and on a concrete binary where they do not.
 */
module NullFields {
  import opened Codec
  import opened Wrappers
  import opened Annotated
  import opened Sorting
  import opened Gaps
  import opened Walks

  // ---- When it cannot happen ------------------------------------------------------------

  /** Field `id` holds the types of a vector of unions. */
  predicate HoldsTypes(c: Context, table: nat, id: nat) {
    IsTable(c.schema, table) && id + 1 < |FieldsOf(c, table)| && FieldsOf(c, table)[id + 1].typ.element == Union
  }

  /** The word for the types of the table at `at` is inside the binary. */
  predicate TypesInside(binary: seq<byte>, at: nat, id: nat)
    requires at + 4 <= |binary|
  {
    at + Distance(binary, at, id) + 2 <= |binary|
  }

  /**
   Of two places that lead to one whole vtable, if the types of the one are inside the binary, then
   those of the other are within its reach. This can be checked on the schema and the words alone.
   */
  ghost predicate Steady(c: Context) {
    forall table: nat, id: nat, a: nat, b: nat | HoldsTypes(c, table, id) && ShareVTable(c.binary, a, b) ::
      TypesInside(c.binary, a, id) ==> !OutOfReach(c.binary, b, Distance(c.binary, b, id))
  }

  lemma SteadyIsSafe(c: Context, v: Visit)
    requires Steady(c) && VisitOk(c, v)
    ensures !Danger(c, v)
  {
    hide SchemaOk, FirstElementRead, SizesOf, LeadOf, KnownUpTo, OutOfReach, Word;
    if 0 < v.id {
      assert HoldsTypes(c, v.table, v.id - 1) && ShareVTable(c.binary, v.parent, v.builder);
      assert TypesInside(c.binary, v.parent, v.id - 1) ==>
          !OutOfReach(c.binary, v.builder, Distance(c.binary, v.builder, v.id - 1));
    }
  }

  /** A steady binary is annotated. */
  lemma SteadyNeverFails(c: Context, rootTable: nat, isSizePrefixed: bool)
    requires Walkable(c) && IsTable(c.schema, rootTable) && Steady(c)
    ensures forall v | v in WalkAll(c, rootTable, isSizePrefixed).w.visits :: !Danger(c, v)
  {
    hide Steady, Walkable, NonEmpty, Remembered, Danger, VisitOk, WalkAll;
    var w := WalkAll(c, rootTable, isSizePrefixed).w;
    forall v | v in w.visits
      ensures !Danger(c, v)
    {
      SteadyIsSafe(c, v);
    }
  }

  /** So is every binary of a schema without vectors of unions. */
  lemma NoVectorsOfUnions(c: Context, rootTable: nat, isSizePrefixed: bool)
    requires Walkable(c) && IsTable(c.schema, rootTable)
    requires forall table: nat, id: nat :: !HoldsTypes(c, table, id)
    ensures forall v | v in WalkAll(c, rootTable, isSizePrefixed).w.visits :: !Danger(c, v)
  {
    hide Walkable, WalkAll, HoldsTypes, IsTable, Danger;
    SteadyNeverFails(c, rootTable, isSizePrefixed);
  }
}
