/**
 Renumbering the fields of a message that comes from protocol buffers. Ids are read from text;
 a union field without an id of its own sorts first and takes two ids.
 */
module ProtoIds {
  import opened Sorting

  /** The text of an id attribute, as its conversion to a number sees it. */
  datatype Constant = Empty | Number(n: int) | Text

  datatype Attribute = NoAttribute | IdAttribute(constant: Constant)

  datatype FieldDef = FieldDef(name: string, id: Attribute, isUnion: bool)

  datatype GapAction = NoOp | Warn | Error

  const MAX_ID := 0xFFFF
  const UNION_ID := -1

  /** StringToNumber for sixteen bits: whether it succeeds, and the value it leaves. */
  function StringToNumber(c: Constant): (bool, nat) {
    match c
    case Number(n) => if 0 <= n <= MAX_ID then (true, n) else (false, MAX_ID)
    case _ => (false, 0)
  }

  predicate HasId(f: FieldDef) {
    f.id.IdAttribute? && f.id.constant != Empty
  }

  // ---- The checks ------------------------------------------------------------------------

  method HasFieldWithId(fields: seq<FieldDef>) returns (r: bool)
    ensures r <==> exists f :: f in fields && HasId(f)
  {
    for i := 0 to |fields|
      invariant forall j :: 0 <= j < i ==> !HasId(fields[j])
    {
      if HasId(fields[i]) {
        return true;
      }
    }
    return false;
  }

  /** The ids of the fields before `i` that convert. */
  function IdsBefore(fields: seq<FieldDef>, i: nat): seq<nat>
    requires i <= |fields|
  {
    if i == 0 then []
    else
      var f := fields[i - 1];
      IdsBefore(fields, i - 1)
      + (if HasId(f) && StringToNumber(f.id.constant).0 then [StringToNumber(f.id.constant).1] else [])
  }

  function ProtoIdsOf(fields: seq<FieldDef>): seq<nat> {
    IdsBefore(fields, |fields|)
  }

  method ExtractProtobufIds(fields: seq<FieldDef>) returns (ids: seq<nat>)
    ensures ids == ProtoIdsOf(fields)
  {
    ids := [];
    for i := 0 to |fields|
      invariant ids == IdsBefore(fields, i)
    {
      if HasId(fields[i]) {
        var (done, id) := StringToNumber(fields[i].id.constant);
        if done {
          ids := ids + [id];
        }
      }
    }
  }

  function Itself(): nat -> int {
    (x: nat) => x
  }

  predicate Distinct(ids: seq<nat>) {
    forall i, j :: 0 <= i < j < |ids| ==> ids[i] != ids[j]
  }

  /** The ids are exactly the numbers from some `m` on. */
  ghost predicate Contiguous(ids: seq<nat>) {
    exists m: nat :: IsRun(ids, m)
  }

  ghost predicate IsRun(ids: seq<nat>, m: nat) {
    forall x :: x in ids <==> m <= x < m + |ids|
  }

  lemma SameElements(s: seq<nat>, t: seq<nat>)
    requires multiset(s) == multiset(t)
    ensures |s| == |t| && forall x :: x in s <==> x in t
  {
    assert |multiset(s)| == |s| && |multiset(t)| == |t|;
    forall x
      ensures x in s <==> x in t
    {
      assert x in s <==> x in multiset(s);
      assert x in t <==> x in multiset(t);
    }
  }

  lemma {:induction false} DistinctByMultiset(s: seq<nat>)
    ensures Distinct(s) ==> forall x :: multiset(s)[x] <= 1
    ensures !Distinct(s) ==> exists x :: multiset(s)[x] > 1
  {
    if Distinct(s) && s != [] {
      var init, last := s[..|s| - 1], s[|s| - 1];
      assert s == init + [last];
      DistinctByMultiset(init);
      assert last !in init;
      assert multiset(init)[last] == 0;
    } else if !Distinct(s) {
      var i, j :| 0 <= i < j < |s| && s[i] == s[j];
      assert s == s[..j] + s[j..];
      assert s[..j][i] == s[i] && s[j..][0] == s[j];
      assert s[i] in multiset(s[..j]) && s[j] in multiset(s[j..]);
      assert multiset(s) == multiset(s[..j]) + multiset(s[j..]);
      assert multiset(s)[s[i]] > 1;
    }
  }

  lemma DistinctPermutes(s: seq<nat>, t: seq<nat>)
    requires multiset(s) == multiset(t)
    ensures Distinct(s) <==> Distinct(t)
  {
    DistinctByMultiset(s);
    DistinctByMultiset(t);
  }

  lemma {:induction false} SortedDistinct(s: seq<nat>)
    requires SortedBy(s, Itself())
    ensures Distinct(s) <==> forall i :: 0 < i < |s| ==> s[i - 1] != s[i]
  {
    if forall i :: 0 < i < |s| ==> s[i - 1] != s[i] {
      forall i, j | 0 <= i < j < |s|
        ensures s[i] != s[j]
      {
        assert Itself()(s[i]) <= Itself()(s[j - 1]) && Itself()(s[j - 1]) <= Itself()(s[j]);
      }
    }
  }

  /** Looks for equal neighbours in the sorted ids. */
  method HasTwiceUsedId(fields: seq<FieldDef>) returns (r: bool)
    requires ProtoIdsOf(fields) != []
    ensures r <==> !Distinct(ProtoIdsOf(fields))
  {
    var ids := ExtractProtobufIds(fields);
    StableSortSorts(ids, Itself());
    DistinctPermutes(ids, StableSort(ids, Itself()));
    ids := StableSort(ids, Itself());
    SortedDistinct(ids);
    for i := 1 to |ids|
      invariant forall j :: 0 < j < i ==> ids[j - 1] != ids[j]
    {
      if ids[i] == ids[i - 1] {
        return true;
      }
    }
    return false;
  }

  lemma {:induction false} StepsAreRun(s: seq<nat>, k: nat)
    requires s != [] && k < |s| && forall i :: 0 < i < |s| ==> s[i] == s[i - 1] + 1
    ensures s[k] == s[0] + k
  {
    if k > 0 {
      StepsAreRun(s, k - 1);
    }
  }

  /** A sorted list that holds exactly a run of its own length counts up by one. */
  lemma {:induction false} RunCountsUp(s: seq<nat>, m: nat, k: nat)
    requires s != [] && SortedBy(s, Itself()) && IsRun(s, m) && k < |s|
    ensures s[k] == m + k
  {
    BelowCount(s, m, k);
    AboveCount(s, m, k);
  }

  lemma InOrder(s: seq<nat>, i: nat, j: nat)
    requires SortedBy(s, Itself()) && i <= j < |s|
    ensures s[i] <= s[j]
  {
    assert i < j ==> Itself()(s[i]) <= Itself()(s[j]);
  }

  lemma {:induction false} BelowCount(s: seq<nat>, m: nat, k: nat)
    requires s != [] && SortedBy(s, Itself()) && IsRun(s, m) && k < |s|
    ensures s[k] <= m + k
    decreases k
  {
    assert m + k in s;
    var j :| 0 <= j < |s| && s[j] == m + k;
    if j >= k {
      InOrder(s, k, j);
    } else {
      InOrder(s, j, k - 1);
      BelowCount(s, m, k - 1);
      assert false;
    }
  }

  lemma {:induction false} AboveCount(s: seq<nat>, m: nat, k: nat)
    requires s != [] && SortedBy(s, Itself()) && IsRun(s, m) && k < |s|
    ensures s[k] >= m + k
    decreases |s| - k
  {
    assert m + k in s;
    var j :| 0 <= j < |s| && s[j] == m + k;
    if j <= k {
      InOrder(s, j, k);
    } else {
      InOrder(s, k + 1, j);
      AboveCount(s, m, k + 1);
      assert false;
    }
  }

  lemma RunPermutes(s: seq<nat>, t: seq<nat>)
    requires multiset(s) == multiset(t)
    ensures Contiguous(s) <==> Contiguous(t)
  {
    SameElements(s, t);
    forall m: nat
      ensures IsRun(s, m) <==> IsRun(t, m)
    {
    }
  }

  lemma SortedRun(s: seq<nat>)
    requires s != [] && SortedBy(s, Itself())
    ensures Contiguous(s) <==> forall i :: 0 < i < |s| ==> s[i] == s[i - 1] + 1
  {
    if Contiguous(s) {
      var m: nat :| IsRun(s, m);
      forall i | 0 < i < |s|
        ensures s[i] == s[i - 1] + 1
      {
        RunCountsUp(s, m, i);
        RunCountsUp(s, m, i - 1);
      }
    }
    if forall i :: 0 < i < |s| ==> s[i] == s[i - 1] + 1 {
      forall k | 0 <= k < |s|
        ensures s[k] == s[0] + k
      {
        StepsAreRun(s, k);
      }
      forall x
        ensures x in s <==> s[0] <= x < s[0] + |s|
      {
        if s[0] <= x < s[0] + |s| {
          assert s[x - s[0]] == x;
        }
      }
      assert IsRun(s, s[0]);
    }
  }

  /** Looks for neighbours in the sorted ids that are not one apart. */
  method HasGapInProtoId(fields: seq<FieldDef>) returns (r: bool)
    requires ProtoIdsOf(fields) != []
    ensures r <==> !Contiguous(ProtoIdsOf(fields))
  {
    var ids := ExtractProtobufIds(fields);
    StableSortSorts(ids, Itself());
    RunPermutes(ids, StableSort(ids, Itself()));
    ids := StableSort(ids, Itself());
    SortedRun(ids);
    for i := 1 to |ids|
      invariant forall j :: 0 < j < i ==> ids[j] == ids[j - 1] + 1
    {
      if ids[i] != ids[i - 1] + 1 {
        return true;
      }
    }
    return false;
  }

  method HasNonPositiveFieldId(fields: seq<FieldDef>) returns (r: bool)
    ensures r <==> exists f :: f in fields && HasId(f) && !StringToNumber(f.id.constant).0
  {
    for i := 0 to |fields|
      invariant forall j :: 0 <= j < i && HasId(fields[j]) ==> StringToNumber(fields[j].id.constant).0
    {
      if HasId(fields[i]) {
        var (done, id) := StringToNumber(fields[i].id.constant);
        if !done {
          return true;
        }
      }
    }
    return false;
  }

  predicate IsReserved(f: FieldDef, reserved: seq<nat>) {
    HasId(f) && (!StringToNumber(f.id.constant).0 || StringToNumber(f.id.constant).1 in reserved)
  }

  method HasFieldIdFromReservedIds(fields: seq<FieldDef>, reserved: seq<nat>) returns (r: bool)
    ensures r <==> exists f :: f in fields && IsReserved(f, reserved)
  {
    for i := 0 to |fields|
      invariant forall j :: 0 <= j < i ==> !IsReserved(fields[j], reserved)
    {
      if IsReserved(fields[i], reserved) {
        return true;
      }
    }
    return false;
  }

  /** Every given id is a number that is used once and not reserved; gaps are refused if asked. */
  ghost predicate Sane(fields: seq<FieldDef>, reserved: seq<nat>, gapAction: GapAction) {
    && (forall f | f in fields && HasId(f) :: StringToNumber(f.id.constant).0)
    && (forall f | f in fields :: !IsReserved(f, reserved))
    && Distinct(ProtoIdsOf(fields))
    && (gapAction == Error ==> Contiguous(ProtoIdsOf(fields)))
  }

  lemma {:induction false} SomeIdConverts(fields: seq<FieldDef>, i: nat, k: nat)
    requires k < i <= |fields| && HasId(fields[k]) && StringToNumber(fields[k].id.constant).0
    ensures IdsBefore(fields, i) != []
  {
    if k < i - 1 {
      SomeIdConverts(fields, i - 1, k);
    }
  }

  /** The field's id is this number. */
  predicate IdIs(f: FieldDef, n: int) {
    f.id == IdAttribute(Number(n))
  }

  /** Ids that are given are numbers of sixteen bits, not reserved, and no two fields have the same one. */
  ghost predicate GoodIds(fields: seq<FieldDef>, reserved: seq<nat>) {
    && (forall f | f in fields && HasId(f) :: exists n :: IdIs(f, n) && 0 <= n <= 0xFFFF && n !in reserved)
    && Apart(fields, |fields|)
  }

  /** No two of the first `i` fields have the same id. */
  ghost predicate Apart(fields: seq<FieldDef>, i: nat)
    requires i <= |fields|
  {
    forall j, k, n | 0 <= j < k < i && IdIs(fields[j], n) :: !IdIs(fields[k], n)
  }

  lemma {:induction false} IdsAre(fields: seq<FieldDef>, i: nat)
    requires i <= |fields| && forall f | f in fields && HasId(f) :: StringToNumber(f.id.constant).0
    ensures forall x: nat :: x in IdsBefore(fields, i) <==> exists j :: 0 <= j < i && IdIs(fields[j], x)
    ensures Distinct(IdsBefore(fields, i)) <==> Apart(fields, i)
    decreases i
  {
    if i > 0 {
      var f, before, ids := fields[i - 1], IdsBefore(fields, i - 1), IdsBefore(fields, i);
      assert f in fields;
      IdsAre(fields, i - 1);
      if HasId(f) {
        var id := StringToNumber(f.id.constant).1;
        assert IdIs(f, id) && ids == before + [id];
        DistinctAppends(before, id);
        ApartStep(fields, i, id);
      } else {
        assert ids == before && (Apart(fields, i - 1) <==> Apart(fields, i));
      }
    }
  }

  lemma ApartStep(fields: seq<FieldDef>, i: nat, id: nat)
    requires 0 < i <= |fields| && IdIs(fields[i - 1], id)
    ensures Apart(fields, i) <==> Apart(fields, i - 1) && !(exists j :: 0 <= j < i - 1 && IdIs(fields[j], id))
  {
    if Apart(fields, i) {
      forall j | 0 <= j < i - 1
        ensures !IdIs(fields[j], id)
      {
        assert IdIs(fields[i - 1], id);
      }
    }
    if Apart(fields, i - 1) && !(exists j :: 0 <= j < i - 1 && IdIs(fields[j], id)) {
      forall j, k, n | 0 <= j < k < i && IdIs(fields[j], n)
        ensures !IdIs(fields[k], n)
      {
        assert k == i - 1 && IdIs(fields[k], n) ==> n == id;
      }
    }
  }

  lemma DistinctAppends(s: seq<nat>, x: nat)
    ensures Distinct(s + [x]) <==> Distinct(s) && x !in s
  {
    var t := s + [x];
    if Distinct(t) {
      assert forall i :: 0 <= i < |s| ==> t[i] == s[i] && t[i] != t[|s|];
    }
  }

  /** The checks in plain numbers; the ids are a run of consecutive numbers if gaps are refused. */
  lemma SaneMeans(fields: seq<FieldDef>, reserved: seq<nat>, gapAction: GapAction)
    ensures Sane(fields, reserved, gapAction) <==>
      GoodIds(fields, reserved) && (gapAction == Error ==> Contiguous(ProtoIdsOf(fields)))
  {
    if forall f | f in fields && HasId(f) :: StringToNumber(f.id.constant).0 {
      IdsAre(fields, |fields|);
    }
    if Sane(fields, reserved, gapAction) {
      forall f | f in fields && HasId(f)
        ensures exists n :: IdIs(f, n) && 0 <= n <= 0xFFFF && n !in reserved
      {
        assert IdIs(f, StringToNumber(f.id.constant).1) && !IsReserved(f, reserved);
      }
    }
    if GoodIds(fields, reserved) {
      forall f | f in fields && HasId(f)
        ensures StringToNumber(f.id.constant).0 && !IsReserved(f, reserved)
      {
        var n :| IdIs(f, n) && 0 <= n <= 0xFFFF && n !in reserved;
      }
    }
  }

  method ProtobufIdSanityCheck(fields: seq<FieldDef>, reserved: seq<nat>, gapAction: GapAction) returns (r: bool)
    requires exists f :: f in fields && HasId(f)
    ensures r <==> Sane(fields, reserved, gapAction)
  {
    var nonPositive := HasNonPositiveFieldId(fields);
    if nonPositive {
      return false;
    }
    var k :| 0 <= k < |fields| && HasId(fields[k]);
    SomeIdConverts(fields, |fields|, k);
    var twice := HasTwiceUsedId(fields);
    if twice {
      return false;
    }
    var isReserved := HasFieldIdFromReservedIds(fields, reserved);
    if isReserved {
      return false;
    }
    if gapAction != NoOp {
      var gap := HasGapInProtoId(fields);
      if gap && gapAction == Error {
        return false;
      }
    }
    return true;
  }

  // ---- Renumbering -------------------------------------------------------------------------

  datatype Pair = Pair(protoId: int, name: string)

  /** A union without an id of its own sorts before everything else. */
  function PairOf(f: FieldDef): Pair
    requires f.id.IdAttribute?
  {
    if f.id.constant == Empty && f.isUnion then Pair(UNION_ID, f.name)
    else Pair(StringToNumber(f.id.constant).1, f.name)
  }

  predicate AllHaveIds(fields: seq<FieldDef>) {
    forall f | f in fields :: f.id.IdAttribute?
  }

  function Pairs(fields: seq<FieldDef>): (r: seq<Pair>)
    requires AllHaveIds(fields)
    ensures |r| == |fields| && forall i :: 0 <= i < |fields| ==> r[i] == PairOf(fields[i])
  {
    seq(|fields|, i requires 0 <= i < |fields| => PairOf(fields[i]))
  }

  function ByProtoId(): Pair -> int {
    (p: Pair) => p.protoId
  }

  /** A permutation in the order of the ids; among equal ids any order will do. */
  ghost predicate IsSorting(sorted: seq<Pair>, pairs: seq<Pair>) {
    SortedBy(sorted, ByProtoId()) && multiset(sorted) == multiset(pairs)
  }

  /** The unions among the pairs before `i`. */
  function Unions(sorted: seq<Pair>, i: nat): (u: nat)
    requires i <= |sorted|
    ensures u <= i
  {
    if i == 0 then 0 else Unions(sorted, i - 1) + (if sorted[i - 1].protoId == UNION_ID then 1 else 0)
  }

  /** The number that the pair at `i` gets: behind the numbers of those before it, and for a union one more. */
  function NumberAt(sorted: seq<Pair>, i: nat): nat
    requires i < |sorted|
  {
    i + Unions(sorted, i + 1)
  }

  datatype IdMap = IdMap(fieldToId: map<string, nat>, successful: bool)

  /** The names of the pairs are pairwise different. */
  predicate DistinctNames(pairs: seq<Pair>) {
    forall i, j :: 0 <= i < j < |pairs| ==> pairs[i].name != pairs[j].name
  }

  /** `id++` in sixteen bits. */
  function Increment(id: nat): nat {
    if id == MAX_ID then 0 else id + 1
  }

  /** The loop that hands out the numbers; sixteen bits, and no name replaces an earlier one. */
  method Renumber(sorted: seq<Pair>) returns (fieldToId: map<string, nat>)
    requires DistinctNames(sorted) && |sorted| + Unions(sorted, |sorted|) <= MAX_ID
    ensures forall i ::
      0 <= i < |sorted| ==> sorted[i].name in fieldToId && fieldToId[sorted[i].name] == NumberAt(sorted, i)
    ensures forall name :: name in fieldToId ==> exists i :: 0 <= i < |sorted| && sorted[i].name == name
  {
    hide Unions;
    NoUnions(sorted);
    fieldToId := map[];
    var id := 0;
    for i := 0 to |sorted|
      invariant id == i + Unions(sorted, i)
      invariant forall j ::
        0 <= j < i ==> sorted[j].name in fieldToId && fieldToId[sorted[j].name] == NumberAt(sorted, j)
      invariant forall name :: name in fieldToId ==> exists j :: 0 <= j < i && sorted[j].name == name
    {
      UnionsStep(sorted, i);
      UnionsRise(sorted, i + 1, |sorted|);
      if sorted[i].protoId == UNION_ID {
        id := Increment(id);
      }
      assert sorted[i].name !in fieldToId;
      fieldToId := fieldToId[sorted[i].name := id];
      id := Increment(id);
    }
  }

  lemma {:induction false} UnionsRise(sorted: seq<Pair>, i: nat, j: nat)
    requires i <= j <= |sorted|
    ensures Unions(sorted, i) <= Unions(sorted, j) <= Unions(sorted, i) + (j - i)
    decreases j - i
  {
    if i < j {
      UnionsRise(sorted, i, j - 1);
    }
  }

  lemma NoUnions(sorted: seq<Pair>)
    ensures Unions(sorted, 0) == 0
  {
  }

  lemma UnionsStep(sorted: seq<Pair>, i: nat)
    requires i < |sorted|
    ensures Unions(sorted, i + 1) == Unions(sorted, i) + (if sorted[i].protoId == UNION_ID then 1 else 0)
  {
  }

  /** Numbers rise along the sorted list, by two at a union: it also takes the number below its own. */
  lemma NumbersRise(sorted: seq<Pair>, i: nat, j: nat)
    requires i < j < |sorted|
    ensures NumberAt(sorted, i) < NumberAt(sorted, j)
    ensures sorted[j].protoId == UNION_ID ==> NumberAt(sorted, i) < NumberAt(sorted, j) - 1
  {
    UnionsRise(sorted, i + 1, j);
  }

  /** The pair whose number, or reserved number, is `k`. */
  ghost predicate Takes(sorted: seq<Pair>, i: nat, k: nat)
    requires i < |sorted|
  {
    NumberAt(sorted, i) == k || (sorted[i].protoId == UNION_ID && NumberAt(sorted, i) == k + 1)
  }

  /** Together the numbers fill 0 up to the number of fields and unions, each taken once. */
  lemma {:induction false} NumbersFill(sorted: seq<Pair>, n: nat, k: nat) returns (i: nat)
    requires n <= |sorted| && k < n + Unions(sorted, n)
    ensures i < n && Takes(sorted, i, k)
    ensures forall j :: 0 <= j < |sorted| && Takes(sorted, j, k) ==> j == i
    decreases n
  {
    if k < n - 1 + Unions(sorted, n - 1) {
      i := NumbersFill(sorted, n - 1, k);
    } else {
      i := n - 1;
      forall j | 0 <= j < |sorted| && Takes(sorted, j, k)
        ensures j == i
      {
        if j < i {
          NumbersRise(sorted, j, i);
        } else if i < j {
          NumbersRise(sorted, i, j);
        }
      }
    }
  }

  lemma NumbersBelow(sorted: seq<Pair>, i: nat)
    requires i < |sorted|
    ensures NumberAt(sorted, i) < |sorted| + Unions(sorted, |sorted|)
    ensures sorted[i].protoId == UNION_ID ==> NumberAt(sorted, i) >= 1
  {
    UnionsRise(sorted, i + 1, |sorted|);
  }

  // ---- What the map means for fields ---------------------------------------------------------

  /** Where a field's pair ended up. */
  lemma PlaceOf(fields: seq<FieldDef>, sorted: seq<Pair>, f: FieldDef) returns (i: nat)
    requires AllHaveIds(fields) && multiset(sorted) == multiset(Pairs(fields)) && f in fields
    ensures i < |sorted| && sorted[i] == PairOf(f)
  {
    var k :| 0 <= k < |fields| && fields[k] == f;
    assert Pairs(fields)[k] in multiset(Pairs(fields));
    assert PairOf(f) in sorted;
    i :| 0 <= i < |sorted| && sorted[i] == PairOf(f);
  }

  predicate DistinctFields(fields: seq<FieldDef>) {
    forall i, j :: 0 <= i < j < |fields| ==> fields[i].name != fields[j].name
  }

  predicate IsBareUnion(f: FieldDef) {
    f.id == IdAttribute(Empty) && f.isUnion
  }

  lemma {:induction false} UnionsAreWithKey(s: seq<Pair>, i: nat)
    requires i <= |s|
    ensures Unions(s, i) == |WithKey(s[..i], ByProtoId(), UNION_ID)|
  {
    if i > 0 {
      UnionsAreWithKey(s, i - 1);
      assert s[..i][..i - 1] == s[..i - 1];
    }
  }

  lemma UnionsPermute(s: seq<Pair>, t: seq<Pair>)
    requires multiset(s) == multiset(t)
    ensures |s| == |t| && Unions(s, |s|) == Unions(t, |t|)
  {
    AllUnions(s);
    AllUnions(t);
    WithKeyPermutes(s, t, ByProtoId(), UNION_ID);
    assert |multiset(s)| == |s| && |multiset(t)| == |t|;
  }

  lemma AllUnions(s: seq<Pair>)
    ensures Unions(s, |s|) == |WithKey(s, ByProtoId(), UNION_ID)|
  {
    UnionsAreWithKey(s, |s|);
    assert s[..|s|] == s;
  }

  /** How many unions take a number for their type besides their own. */
  function BareUnions(fields: seq<FieldDef>): nat
    requires AllHaveIds(fields)
  {
    Unions(Pairs(fields), |fields|)
  }

  lemma NamesPermute(fields: seq<FieldDef>, sorted: seq<Pair>)
    requires AllHaveIds(fields) && DistinctFields(fields) && multiset(sorted) == multiset(Pairs(fields))
    ensures DistinctNames(sorted)
  {
    forall i, j | 0 <= i < j < |sorted|
      ensures sorted[i].name != sorted[j].name
    {
      if sorted[i].name == sorted[j].name {
        assert sorted[i] in multiset(sorted) && sorted[j] in multiset(sorted);
        var k := FieldOf(fields, sorted[i]);
        var l := FieldOf(fields, sorted[j]);
        assert k == l;
        TwicePermutes(sorted, Pairs(fields), i, j);
      }
    }
  }

  lemma FieldOf(fields: seq<FieldDef>, p: Pair) returns (k: nat)
    requires AllHaveIds(fields) && p in multiset(Pairs(fields))
    ensures k < |fields| && PairOf(fields[k]) == p
  {
    assert p in Pairs(fields);
    k :| 0 <= k < |fields| && Pairs(fields)[k] == p;
  }

  /** An element that stands twice in a list stands twice in every permutation. */
  lemma TwicePermutes(s: seq<Pair>, t: seq<Pair>, i: nat, j: nat)
    requires multiset(s) == multiset(t) && i < j < |s| && s[i] == s[j]
    ensures exists a, b :: 0 <= a < b < |t| && t[a] == t[b]
  {
    assert s == s[..j] + s[j..];
    assert s[..j][i] == s[i] && s[j..][0] == s[j];
    assert s[i] in multiset(s[..j]) && s[j] in multiset(s[j..]);
    assert multiset(s) == multiset(s[..j]) + multiset(s[j..]);
    assert multiset(t)[s[i]] > 1;
    TwiceInside(t, s[i]);
  }

  lemma {:induction false} TwiceInside(t: seq<Pair>, x: Pair)
    requires multiset(t)[x] > 1
    ensures exists a, b :: 0 <= a < b < |t| && t[a] == t[b]
  {
    var init, last := t[..|t| - 1], t[|t| - 1];
    assert t == init + [last];
    if last == x {
      assert x in init;
      var a :| 0 <= a < |init| && init[a] == x;
      assert t[a] == t[|t| - 1];
    } else {
      TwiceInside(init, x);
      var a, b :| 0 <= a < b < |init| && init[a] == init[b];
      assert t[a] == t[b];
    }
  }

  // ---- The numbering of the fields -----------------------------------------------------------

  /** A number for every field, which follows the order of the ids. */
  ghost predicate Orders(fields: seq<FieldDef>, m: map<string, nat>) {
    && (forall f | f in fields :: f.name in m)
    && (AllHaveIds(fields) ==> forall f, g | f in fields && g in fields && PairOf(f).protoId < PairOf(g).protoId ::
          m[f.name] < m[g.name])
  }

  /** `k` is the number of the field, or the one below it that a union's type gets. */
  predicate Uses(m: map<string, nat>, f: FieldDef, k: nat) {
    f.name in m && (m[f.name] == k || (IsBareUnion(f) && m[f.name] == k + 1))
  }

  ghost predicate IsUsed(fields: seq<FieldDef>, m: map<string, nat>, k: nat) {
    exists f :: f in fields && Uses(m, f, k)
  }

  /** Every number below `total` is used by exactly one field, and no other number is. */
  ghost predicate Fills(fields: seq<FieldDef>, m: map<string, nat>, total: nat) {
    && (forall k: nat | k < total :: IsUsed(fields, m, k))
    && (forall k: nat, f | f in fields && Uses(m, f, k) :: k < total)
    && (forall k: nat, f, g | f in fields && g in fields && Uses(m, f, k) && Uses(m, g, k) :: f.name == g.name)
  }

  /** In the order of the ids, and filling 0 up to the number of fields and unions. */
  ghost predicate Numbers(fields: seq<FieldDef>, m: map<string, nat>) {
    AllHaveIds(fields) && Orders(fields, m) && Fills(fields, m, |fields| + BareUnions(fields))
  }

  ghost predicate IsNumbered(sorted: seq<Pair>, m: map<string, nat>) {
    forall i :: 0 <= i < |sorted| ==> sorted[i].name in m && m[sorted[i].name] == NumberAt(sorted, i)
  }

  lemma InIdOrder(sorted: seq<Pair>, i: nat, j: nat)
    requires SortedBy(sorted, ByProtoId()) && i < |sorted| && j < |sorted| && sorted[i].protoId < sorted[j].protoId
    ensures i < j
  {
    if j < i {
      SortedAt(sorted, ByProtoId(), j, i);
      assert false;
    }
  }

  lemma NumberingOrders(fields: seq<FieldDef>, sorted: seq<Pair>, m: map<string, nat>)
    requires AllHaveIds(fields) && IsSorting(sorted, Pairs(fields)) && IsNumbered(sorted, m)
    ensures Orders(fields, m)
  {
    forall f | f in fields
      ensures f.name in m
    {
      var i := PlaceOf(fields, sorted, f);
    }
    forall f, g | f in fields && g in fields && PairOf(f).protoId < PairOf(g).protoId
      ensures m[f.name] < m[g.name]
    {
      var i := PlaceOf(fields, sorted, f);
      var j := PlaceOf(fields, sorted, g);
      InIdOrder(sorted, i, j);
      NumbersRise(sorted, i, j);
    }
  }

  /** A field uses the numbers that its pair takes. */
  lemma UsesIsTakes(fields: seq<FieldDef>, sorted: seq<Pair>, m: map<string, nat>, f: FieldDef, i: nat, k: nat)
    requires AllHaveIds(fields) && IsNumbered(sorted, m) && f in fields && i < |sorted| && sorted[i] == PairOf(f)
    ensures Uses(m, f, k) <==> Takes(sorted, i, k)
  {
  }

  lemma NumberingFills(fields: seq<FieldDef>, sorted: seq<Pair>, m: map<string, nat>)
    requires AllHaveIds(fields) && IsSorting(sorted, Pairs(fields)) && IsNumbered(sorted, m)
    ensures Fills(fields, m, |fields| + BareUnions(fields))
  {
    UnionsPermute(sorted, Pairs(fields));
    var total := |fields| + BareUnions(fields);
    assert |sorted| == |fields| && Unions(sorted, |sorted|) == BareUnions(fields);
    hide IsNumbered, BareUnions, Takes, Uses, Unions;
    forall k: nat | k < total
      ensures IsUsed(fields, m, k)
    {
      var f := UserOf(fields, sorted, m, k);
    }
    forall k: nat, f | f in fields && Uses(m, f, k)
      ensures k < total
    {
      var i := PlaceOf(fields, sorted, f);
      UsesIsTakes(fields, sorted, m, f, i, k);
      TakenBelow(sorted, i, k);
    }
    forall k: nat, f, g | f in fields && g in fields && Uses(m, f, k) && Uses(m, g, k)
      ensures f.name == g.name
    {
      var i := PlaceOf(fields, sorted, f);
      var j := PlaceOf(fields, sorted, g);
      UsesIsTakes(fields, sorted, m, f, i, k);
      UsesIsTakes(fields, sorted, m, g, j, k);
      TakenBelow(sorted, i, k);
      var only := NumbersFill(sorted, |sorted|, k);
      assert i == only && j == only;
    }
  }

  lemma UserOf(fields: seq<FieldDef>, sorted: seq<Pair>, m: map<string, nat>, k: nat) returns (f: FieldDef)
    requires AllHaveIds(fields) && IsSorting(sorted, Pairs(fields)) && IsNumbered(sorted, m)
    requires k < |sorted| + Unions(sorted, |sorted|)
    ensures f in fields && Uses(m, f, k)
  {
    var i := NumbersFill(sorted, |sorted|, k);
    assert sorted[i] in multiset(sorted);
    var j := FieldOf(fields, sorted[i]);
    f := fields[j];
    UsesIsTakes(fields, sorted, m, f, i, k);
  }

  lemma TakenBelow(sorted: seq<Pair>, i: nat, k: nat)
    requires i < |sorted| && Takes(sorted, i, k)
    ensures k < |sorted| + Unions(sorted, |sorted|)
  {
    NumbersBelow(sorted, i);
  }

  /** Of two fields with ids, the one with the smaller id gets the smaller number; a bare union comes before both. */
  lemma SmallerIdFirst(fields: seq<FieldDef>, m: map<string, nat>, f: FieldDef, g: FieldDef, b: int)
    requires Numbers(fields, m) && f in fields && g in fields && IdIs(g, b) && 0 <= b <= 0xFFFF
    ensures f.name in m && g.name in m
    ensures forall a | IdIs(f, a) && 0 <= a < b :: m[f.name] < m[g.name]
    ensures IsBareUnion(f) ==> m[f.name] < m[g.name]
  {
    hide Fills;
  }

  /**
   `sorted` is what the library's sort makes of the pairs; it need not be stable. On success the
   numbers follow the order of the ids, and with the extra ones of the unions they fill 0 up to
   the number of fields and unions, each used once.
   */
  method MapProtoIdsToFieldsId(fields: seq<FieldDef>, reserved: seq<nat>, gapAction: GapAction, sorted: seq<Pair>)
    returns (r: IdMap)
    requires DistinctFields(fields)
    requires AllHaveIds(fields) ==> IsSorting(sorted, Pairs(fields)) && |fields| + BareUnions(fields) <= MAX_ID
    ensures var given := exists f :: f in fields && HasId(f);
      && (r.successful <==> !given || (Sane(fields, reserved, gapAction) && AllHaveIds(fields)))
      && (!given || !r.successful ==> r.fieldToId == map[])
      && (given && r.successful ==> Numbers(fields, r.fieldToId))
  {
    hide Sane, Orders, Fills, Unions, SortedBy;
    var given := HasFieldWithId(fields);
    if !given {
      return IdMap(map[], true);
    }
    var sane := ProtobufIdSanityCheck(fields, reserved, gapAction);
    if !sane {
      return IdMap(map[], false);
    }
    for i := 0 to |fields|
      invariant forall j :: 0 <= j < i ==> fields[j].id.IdAttribute?
    {
      if fields[i].id.NoAttribute? {
        return IdMap(map[], false);
      }
    }
    NamesPermute(fields, sorted);
    UnionsPermute(sorted, Pairs(fields));
    var fieldToId := Renumber(sorted);
    NumberingOrders(fields, sorted, fieldToId);
    NumberingFills(fields, sorted, fieldToId);
    r := IdMap(fieldToId, true);
  }
}
