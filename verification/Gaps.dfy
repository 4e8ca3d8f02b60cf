/**
 The two passes that fill gaps. FixMissingRegions fills them inside a section, FixMissingSections
 between sections; its cursor is one past the end of a section and compared strictly, so that a
 gap of a single byte stays.
 */
module Gaps {
  import opened Codec
  import opened Wrappers
  import opened Annotated
  import opened Sorting

  type Sections = map<nat, Section>

  predicate SectionsOk(m: Sections, binary: seq<byte>) {
    forall k | k in m :: SectionOk(k, m[k], binary)
  }

  // ---- Gap regions --------------------------------------------------------------------

  predicate AllZero(binary: seq<byte>, offset: nat, length: nat) {
    forall i :: offset <= i < offset + length && i < |binary| ==> binary[i] == 0
  }

  method IsNonZeroRegion(binary: seq<byte>, offset: nat, length: nat) returns (r: bool)
    requires offset + length <= |binary|
    ensures r == !AllZero(binary, offset, length)
  {
    for i := offset to offset + length
      invariant forall j :: offset <= j < i ==> binary[j] == 0
    {
      if binary[i] != 0 {
        return true;
      }
    }
    return false;
  }

  /** A gap is padding if it is all zero, and unknown bytes otherwise. */
  function GapRegion(binary: seq<byte>, offset: nat, length: nat): Region {
    Region(offset, length, if AllZero(binary, offset, length) then Uint8 else UnknownBytes, length, 0)
  }

  // ---- Inside a section -----------------------------------------------------------------

  /** Where the regions before number `i` end; regions that start outside the binary are passed over. */
  function RegionCursor(rs: seq<Region>, i: nat, n: nat): nat
    requires 0 < i <= |rs|
  {
    if i == 1 then rs[0].offset + rs[0].length
    else if rs[i - 1].offset < n then rs[i - 1].offset + rs[i - 1].length
    else RegionCursor(rs, i - 1, n)
  }

  /** The gaps in front of the regions before number `i`. */
  function RegionGaps(binary: seq<byte>, rs: seq<Region>, i: nat): seq<Region>
    requires 0 < i <= |rs|
  {
    if i == 1 then []
    else
      var at, next := RegionCursor(rs, i - 1, |binary|), rs[i - 1].offset;
      RegionGaps(binary, rs, i - 1)
      + (if next < |binary| && at < next then [GapRegion(binary, at, next - at)] else [])
  }

  function ByOffset(): Region -> int {
    (r: Region) => r.offset
  }

  function Filled(binary: seq<byte>, rs: seq<Region>): (r: seq<Region>)
    requires rs != []
    ensures r != []
  {
    if RegionGaps(binary, rs, |rs|) == [] then rs else StableSort(rs + RegionGaps(binary, rs, |rs|), ByOffset())
  }

  /** The pass over one section. */
  method FillRegions(binary: seq<byte>, regions: seq<Region>) returns (r: seq<Region>)
    requires regions != []
    ensures r == Filled(binary, regions)
  {
    var toInsert := [];
    var offset := regions[0].offset + regions[0].length;
    for i := 1 to |regions|
      invariant offset == RegionCursor(regions, i, |binary|) && toInsert == RegionGaps(binary, regions, i)
    {
      var nextOffset := regions[i].offset;
      if nextOffset < |binary| {
        if offset < nextOffset {
          var nonZero := IsNonZeroRegion(binary, offset, nextOffset - offset);
          var length := nextOffset - offset;
          toInsert := toInsert + [Region(offset, length, if nonZero then UnknownBytes else Uint8, length, 0)];
        }
        offset := nextOffset + regions[i].length;
      }
    }
    r := if toInsert == [] then regions else StableSort(regions + toInsert, ByOffset());
  }

  /** Sorted, non-overlapping regions that all start inside the binary. */
  predicate Apart(rs: seq<Region>, n: nat) {
    && (forall i | 0 <= i < |rs| :: rs[i].offset < n)
    && (forall i | 0 < i < |rs| :: rs[i - 1].offset + rs[i - 1].length <= rs[i].offset)
  }

  /** The regions before number `i` with every gap between them in place. */
  function Woven(binary: seq<byte>, rs: seq<Region>, i: nat): seq<Region>
    requires i <= |rs|
  {
    if i == 0 then []
    else
      var before, next := Woven(binary, rs, i - 1), rs[i - 1];
      if i == 1 || End(rs[..i - 1]) >= next.offset then before + [next]
      else before + [GapRegion(binary, End(rs[..i - 1]), next.offset - End(rs[..i - 1])), next]
  }

  /** `a` stands in `b` in order. */
  predicate Subsequence(a: seq<Region>, b: seq<Region>)
    decreases |b|
  {
    || a == []
    || (b != [] && (Subsequence(a, b[..|b| - 1])
                    || (a[|a| - 1] == b[|b| - 1] && Subsequence(a[..|a| - 1], b[..|b| - 1]))))
  }

  lemma SubsequenceAppend(a: seq<Region>, b: seq<Region>, r: Region)
    requires Subsequence(a, b)
    ensures Subsequence(a + [r], b + [r]) && Subsequence(a, b + [r])
  {
    assert (a + [r])[..|a|] == a && (b + [r])[..|b|] == b;
  }

  /** A gap of positive length, typed by whether its bytes are zero. */
  predicate IsGapRegion(binary: seq<byte>, r: Region) {
    r.length > 0 && r == GapRegion(binary, r.offset, r.length)
  }

  lemma {:induction false} WovenTiles(binary: seq<byte>, rs: seq<Region>, i: nat)
    requires Apart(rs, |binary|) && 0 < i <= |rs|
    ensures Tiles(Woven(binary, rs, i), rs[0].offset, End(rs[..i]))
    ensures Subsequence(rs[..i], Woven(binary, rs, i))
    ensures forall r | r in Woven(binary, rs, i) :: r in rs || IsGapRegion(binary, r)
  {
    var next := rs[i - 1];
    assert rs[..i] == rs[..i - 1] + [next];
    if i == 1 {
      assert Woven(binary, rs, 0) == [] && rs[..0] == [];
      assert Woven(binary, rs, 1) == [] + [next];
      TilesAppend([], next.offset, next.offset, next);
      SubsequenceAppend([], [], next);
    } else {
      var before, at := Woven(binary, rs, i - 1), End(rs[..i - 1]);
      WovenTiles(binary, rs, i - 1);
      if at < next.offset {
        var gap := GapRegion(binary, at, next.offset - at);
        TilesAppend(before, rs[0].offset, at, gap);
        SubsequenceAppend(rs[..i - 1], before, gap);
        TilesAppend(before + [gap], rs[0].offset, next.offset, next);
        SubsequenceAppend(rs[..i - 1], before + [gap], next);
        assert Woven(binary, rs, i) == before + [gap] + [next];
      } else {
        TilesAppend(before, rs[0].offset, at, next);
        SubsequenceAppend(rs[..i - 1], before, next);
      }
    }
  }

  lemma {:induction false} WovenBelow(binary: seq<byte>, rs: seq<Region>, i: nat)
    requires Apart(rs, |binary|) && 0 < i <= |rs|
    ensures forall j :: 0 <= j < |Woven(binary, rs, i)| ==> Woven(binary, rs, i)[j].offset <= rs[i - 1].offset
  {
    if i > 1 {
      WovenBelow(binary, rs, i - 1);
    }
  }

  lemma {:induction false} ApartRises(rs: seq<Region>, n: nat, i: nat, j: nat)
    requires Apart(rs, n) && i <= j < |rs|
    ensures rs[i].offset <= rs[j].offset
  {
    if i < j {
      ApartRises(rs, n, i, j - 1);
    }
  }

  lemma CursorIsEnd(rs: seq<Region>, i: nat, n: nat)
    requires Apart(rs, n) && 0 < i <= |rs|
    ensures RegionCursor(rs, i, n) == End(rs[..i])
  {
  }

  lemma ApartSorted(rs: seq<Region>, n: nat)
    requires Apart(rs, n)
    ensures SortedBy(rs, ByOffset())
  {
    hide Apart;
    forall a, b | 0 <= a < b < |rs|
      ensures rs[a].offset <= rs[b].offset
    {
      ApartRises(rs, n, a, b);
    }
  }

  lemma FirstWoven(binary: seq<byte>, rs: seq<Region>)
    requires rs != []
    ensures RegionGaps(binary, rs, 1) == [] && Woven(binary, rs, 1) == [rs[0]]
  {
    assert Woven(binary, rs, 0) == [];
    assert [] + [rs[0]] == [rs[0]];
  }

  lemma SortFirst(binary: seq<byte>, rs: seq<Region>)
    requires Apart(rs, |binary|) && rs != []
    ensures StableSort(rs + RegionGaps(binary, rs, 1), ByOffset()) == Woven(binary, rs, 1) + rs[1..]
  {
    hide *;
    ApartSorted(rs, |binary|);
    FirstWoven(binary, rs);
    StableSortKeeps(rs, ByOffset());
    assert rs + [] == rs;
    assert rs == [rs[0]] + rs[1..];
  }

  lemma NoGapStep(binary: seq<byte>, rs: seq<Region>, i: nat)
    requires Apart(rs, |binary|) && 1 < i <= |rs| && End(rs[..i - 1]) >= rs[i - 1].offset
    ensures RegionGaps(binary, rs, i) == RegionGaps(binary, rs, i - 1)
    ensures Woven(binary, rs, i) + rs[i..] == Woven(binary, rs, i - 1) + rs[i - 1..]
  {
    CursorIsEnd(rs, i - 1, |binary|);
    assert rs[i - 1..] == [rs[i - 1]] + rs[i..];
    assert Woven(binary, rs, i - 1) + ([rs[i - 1]] + rs[i..]) == Woven(binary, rs, i) + rs[i..];
  }

  /** Sorting the gaps of the first `i` regions into all of them. */
  lemma {:induction false} SortWeaves(binary: seq<byte>, rs: seq<Region>, i: nat)
    requires Apart(rs, |binary|) && 0 < i <= |rs|
    ensures StableSort(rs + RegionGaps(binary, rs, i), ByOffset()) == Woven(binary, rs, i) + rs[i..]
  {
    hide *;
    if i == 1 {
      SortFirst(binary, rs);
    } else {
      SortWeaves(binary, rs, i - 1);
      var at, next := End(rs[..i - 1]), rs[i - 1];
      if at < next.offset {
        SortOneGap(binary, rs, i, GapRegion(binary, at, next.offset - at));
      } else {
        NoGapStep(binary, rs, i);
      }
    }
  }

  lemma SortOneGap(binary: seq<byte>, rs: seq<Region>, i: nat, gap: Region)
    requires Apart(rs, |binary|) && 1 < i <= |rs|
    requires End(rs[..i - 1]) < rs[i - 1].offset
    requires gap == GapRegion(binary, End(rs[..i - 1]), rs[i - 1].offset - End(rs[..i - 1]))
    requires StableSort(rs + RegionGaps(binary, rs, i - 1), ByOffset()) == Woven(binary, rs, i - 1) + rs[i - 1..]
    ensures StableSort(rs + RegionGaps(binary, rs, i), ByOffset()) == Woven(binary, rs, i) + rs[i..]
  {
    hide AllZero, StableSort, RegionGaps, RegionCursor, End;
    var before, gaps, next := Woven(binary, rs, i - 1), RegionGaps(binary, rs, i - 1), rs[i - 1];
    GapsStep(binary, rs, i, gap);
    WovenBelow(binary, rs, i - 1);
    GapIsBehind(binary, rs, i, gap);
    forall j | i - 1 <= j < |rs|
      ensures rs[j].offset > gap.offset
    {
      ApartRises(rs, |binary|, i - 1, j);
    }
    SortAppends(rs + gaps, gap, before, rs[i - 1..], ByOffset());
    assert rs + gaps + [gap] == rs + (gaps + [gap]);
    assert rs[i - 1..] == [next] + rs[i..];
    assert before + [gap] + ([next] + rs[i..]) == before + [gap, next] + rs[i..];
  }

  lemma GapsStep(binary: seq<byte>, rs: seq<Region>, i: nat, gap: Region)
    requires Apart(rs, |binary|) && 1 < i <= |rs|
    requires End(rs[..i - 1]) < rs[i - 1].offset
    requires gap == GapRegion(binary, End(rs[..i - 1]), rs[i - 1].offset - End(rs[..i - 1]))
    ensures RegionGaps(binary, rs, i) == RegionGaps(binary, rs, i - 1) + [gap]
    ensures Woven(binary, rs, i) == Woven(binary, rs, i - 1) + [gap, rs[i - 1]]
  {
    CursorIsEnd(rs, i - 1, |binary|);
  }

  lemma GapIsBehind(binary: seq<byte>, rs: seq<Region>, i: nat, gap: Region)
    requires Apart(rs, |binary|) && 1 < i <= |rs| && gap.offset == End(rs[..i - 1])
    ensures rs[i - 2].offset <= gap.offset
  {
  }

  /**
   On sorted, non-overlapping regions the pass gives a tiling from the first start to the last end:
   every region is still there, in order, and whatever else is there is a gap of positive length,
   typed by whether its bytes are zero.
   */
  lemma FilledTiles(binary: seq<byte>, rs: seq<Region>)
    requires rs != [] && Apart(rs, |binary|)
    ensures Tiles(Filled(binary, rs), rs[0].offset, End(rs))
    ensures Subsequence(rs, Filled(binary, rs))
    ensures forall r | r in Filled(binary, rs) :: r in rs || IsGapRegion(binary, r)
  {
    SortWeaves(binary, rs, |rs|);
    WovenTiles(binary, rs, |rs|);
    assert rs[..|rs|] == rs && Woven(binary, rs, |rs|) + rs[|rs|..] == Woven(binary, rs, |rs|);
    if RegionGaps(binary, rs, |rs|) == [] {
      assert rs + [] == rs;
      forall a, b | 0 <= a < b < |rs|
        ensures rs[a].offset <= rs[b].offset
      {
        ApartRises(rs, |binary|, a, b);
      }
      StableSortKeeps(rs, ByOffset());
    }
  }

  /** Regions that stand without gap are left as they are. */
  lemma TiledStays(binary: seq<byte>, rs: seq<Region>, a: nat, b: nat)
    requires rs != [] && Tiles(rs, a, b)
    ensures Filled(binary, rs) == rs
  {
    assert rs[..|rs|] == rs;
    TiledHasNoGaps(binary, rs, |rs|, a, b);
  }

  lemma {:induction false} TiledHasNoGaps(binary: seq<byte>, rs: seq<Region>, i: nat, a: nat, b: nat)
    requires 0 < i <= |rs| && Tiles(rs[..i], a, b)
    ensures RegionGaps(binary, rs, i) == []
    ensures rs[i - 1].offset < |binary| ==> RegionCursor(rs, i, |binary|) == b
    ensures rs[i - 1].offset <= b
  {
    if i > 1 {
      assert rs[..i][..i - 1] == rs[..i - 1] && rs[..i - 1] != [];
      TiledHasNoGaps(binary, rs, i - 1, a, rs[i - 1].offset);
    }
  }

  /** No region is lost, whatever the order. */
  lemma FilledKeeps(binary: seq<byte>, rs: seq<Region>, r: Region)
    requires r in rs
    ensures r in Filled(binary, rs)
  {
    hide RegionGaps, StableSort;
    var all := rs + RegionGaps(binary, rs, |rs|);
    StableSortSorts(all, ByOffset());
    assert r in all;
    assert r in multiset(all) && r in multiset(StableSort(all, ByOffset()));
  }

  // ---- Regions stay good, in any order ------------------------------------------------------

  lemma {:induction false} GapsOk(binary: seq<byte>, rs: seq<Region>, i: nat, start: nat)
    requires 0 < i <= |rs| && RegionsOk(rs, start, binary)
    ensures RegionsOk(RegionGaps(binary, rs, i), start, binary)
    ensures RegionCursor(rs, i, |binary|) > start
  {
    if i > 1 {
      GapsOk(binary, rs, i - 1, start);
    }
  }

  lemma {:induction false} LeastFirst(s: seq<Region>, t: seq<Region>, start: nat)
    requires SortedBy(t, ByOffset()) && multiset(t) == multiset(s) && s != []
    requires s[0].offset == start && forall i :: 0 <= i < |s| ==> start <= s[i].offset
    ensures t != [] && t[0].offset == start
  {
    assert s[0] in multiset(s);
    assert s[0] in t;
    var j :| 0 <= j < |t| && t[j] == s[0];
    assert t[0] in multiset(t);
    assert t[0] in s;
  }

  /** The pass keeps a section within the binary, whatever the order of its regions. */
  lemma FilledOk(binary: seq<byte>, start: nat, s: Section)
    requires SectionOk(start, s, binary)
    ensures SectionOk(start, s.(regions := Filled(binary, s.regions)), binary)
  {
    hide AllZero, InsertSorted, Tiles;
    var rs := s.regions;
    if Contiguous(s.typ) {
      TiledStays(binary, rs, start, End(rs));
    }
    var gaps := RegionGaps(binary, rs, |rs|);
    var r := Filled(binary, rs);
    GapsOk(binary, rs, |rs|, start);
    if gaps != [] {
      StableSortSorts(rs + gaps, ByOffset());
      LeastFirst(rs + gaps, r, start);
      forall i | 0 <= i < |r|
        ensures Within(r[i], |binary|) && Behind(r[i], start) && Truthful(binary, r[i])
      {
        assert r[i] in multiset(r);
        assert r[i] in rs + gaps;
      }
    }
  }

  // ---- Between sections -----------------------------------------------------------------------

  /** Some section covers the byte at `p`. */
  ghost predicate Covered(m: Sections, p: nat) {
    exists k :: k in m && m[k].regions != [] && k <= p < End(m[k].regions)
  }

  /** The greatest key that is not above `p`, as the map's lower_bound and one step back find it. */
  function Floor(keys: set<nat>, p: nat): (r: Option<nat>)
    ensures r.None? ==> forall k :: k in keys ==> k > p
    ensures r.Some? ==> r.value in keys && r.value <= p && forall k :: k in keys && k <= p ==> k <= r.value
  {
    if p in keys then Some(p) else if p == 0 then None else Floor(keys, p - 1)
  }

  predicate NonEmpty(m: Sections) {
    forall k | k in m :: m[k].regions != []
  }

  /** ContainsSection: looks at one section only, the last that starts no later than `p`. */
  predicate Contains(m: Sections, p: nat)
    requires NonEmpty(m)
  {
    match Floor(m.Keys, p)
    case None => false
    case Some(k) => k == p || p < End(m[k].regions)
  }

  predicate Disjoint(m: Sections) {
    forall j, k | j in m && k in m && j < k :: m[j].regions != [] ==> End(m[j].regions) <= k
  }

  /** Later sections do not replace earlier ones. */
  ghost predicate Grows(a: Sections, b: Sections) {
    forall k | k in a :: k in b && b[k] == a[k]
  }

  lemma GrowsOn(a: Sections, b: Sections, c: Sections)
    requires Grows(a, b) && Grows(b, c)
    ensures Grows(a, c)
  {
  }

  /** A section that is found covers the byte, and on disjoint sections none is missed. */
  lemma ContainsMeans(binary: seq<byte>, m: Sections, p: nat)
    requires SectionsOk(m, binary)
    ensures Contains(m, p) ==> Covered(m, p)
    ensures Disjoint(m) ==> (Contains(m, p) <==> Covered(m, p))
  {
    hide Truthful;
    var f := Floor(m.Keys, p);
    if Contains(m, p) {
      var rs := m[f.value].regions;
      assert Behind(rs[|rs| - 1], f.value);
      assert f.value in m && f.value <= p < End(rs);
    }
    if Covered(m, p) && Disjoint(m) {
      var k :| k in m && m[k].regions != [] && k <= p < End(m[k].regions);
      assert k in m.Keys;
      assert f.Some? && k <= f.value;
    }
  }

  function MissingSection(binary: seq<byte>, offset: nat, length: nat): Section {
    Section(if AllZero(binary, offset, length) then Padding else UnknownSection, [GapRegion(binary, offset, length)])
  }

  method GenerateMissingSection(binary: seq<byte>, offset: nat, length: nat) returns (s: Section)
    requires offset + length <= |binary|
    ensures s == MissingSection(binary, offset, length)
  {
    var nonZero := IsNonZeroRegion(binary, offset, length);
    if nonZero {
      return Section(UnknownSection, [Region(offset, length, UnknownBytes, length, 0)]);
    }
    return Section(Padding, [Region(offset, length, Uint8, length, 0)]);
  }

  /** One past the end of the last section that starts before `k`; zero at the start. */
  function SectionCursor(m: Sections, k: nat): nat
    requires NonEmpty(m)
  {
    if k == 0 then 0
    else if k - 1 in m then End(m[k - 1].regions) + 1
    else SectionCursor(m, k - 1)
  }

  /** The sections to insert in front of those that start before `k`. */
  function MissingBefore(binary: seq<byte>, m: Sections, k: nat): seq<Section>
    requires NonEmpty(m)
  {
    if k == 0 then []
    else
      MissingBefore(binary, m, k - 1) + (if k - 1 in m then MissingAt(binary, SectionCursor(m, k - 1), k - 1) else [])
  }

  /** The missing section, if any, between a cursor and the next start. */
  function MissingAt(binary: seq<byte>, cursor: nat, next: nat): seq<Section> {
    if 0 < cursor < next then [MissingSection(binary, cursor - 1, next - cursor + 1)] else []
  }

  function AllMissing(binary: seq<byte>, m: Sections): seq<Section>
    requires NonEmpty(m)
  {
    MissingBefore(binary, m, |binary|) + MissingAt(binary, SectionCursor(m, |binary|), |binary|)
  }

  /** AddSection: does not replace a section that is there. */
  function Add(m: Sections, k: nat, s: Section): Sections {
    if k in m then m else m[k := s]
  }

  function AddAll(m: Sections, ss: seq<Section>): Sections
    requires forall s :: s in ss ==> s.regions != []
  {
    if ss == [] then m
    else
      assert ss[|ss| - 1] in ss;
      Add(AddAll(m, ss[..|ss| - 1]), ss[|ss| - 1].regions[0].offset, ss[|ss| - 1])
  }

  lemma {:induction false} MissingNotEmpty(binary: seq<byte>, m: Sections, k: nat)
    requires NonEmpty(m)
    ensures forall s | s in MissingBefore(binary, m, k) :: s.regions != []
  {
    if k > 0 {
      MissingNotEmpty(binary, m, k - 1);
    }
  }

  function WithMissing(binary: seq<byte>, m: Sections): Sections
    requires NonEmpty(m)
  {
    MissingNotEmpty(binary, m, |binary|);
    AddAll(m, AllMissing(binary, m))
  }

  /** Every section with the gaps between its regions filled. */
  function FilledSections(binary: seq<byte>, m: Sections): (r: Sections)
    requires NonEmpty(m)
    ensures NonEmpty(r)
  {
    map k | k in m :: m[k].(regions := Filled(binary, m[k].regions))
  }

  // ---- What the pass inserts --------------------------------------------------------------------

  /** Consecutive starts `a` and `b`, with bytes `e .. b` between them that `a`'s section does not reach. */
  ghost predicate Gap(m: Sections, n: nat, a: nat, e: nat, b: nat) {
    && a in m && m[a].regions != [] && End(m[a].regions) == e && e + 1 < b <= n && (b in m || b == n)
    && forall k | k in m :: k <= a || b <= k
  }

  ghost predicate IsMissing(binary: seq<byte>, m: Sections, s: Section, top: nat) {
    exists a: nat, e: nat, b: nat :: Gap(m, |binary|, a, e, b) && b < top && s == MissingSection(binary, e, b - e)
  }

  /** The cursor stands behind the section with the greatest start below `k`. */
  lemma {:induction false} CursorFollows(m: Sections, k: nat, a: nat)
    requires NonEmpty(m)
    requires a in m && a < k && forall j | j in m :: j <= a || k <= j
    ensures SectionCursor(m, k) == End(m[a].regions) + 1
  {
    if a != k - 1 {
      CursorFollows(m, k - 1, a);
    }
  }

  /** The last start below `k`. */
  lemma LastBefore(m: Sections, k: nat) returns (a: nat)
    requires 0 in m && k > 0
    ensures a in m && a < k && forall j | j in m :: j <= a || k <= j
  {
    a := 0;
    var i := 1;
    while i < k
      invariant 0 < i <= k && a in m && a < i && forall j | j in m :: j <= a || i <= j
    {
      if i in m {
        a := i;
      }
      i := i + 1;
    }
  }

  /** A gap in front of a start, or of the end of the binary, is what gets inserted. */
  lemma GapIsInserted(binary: seq<byte>, m: Sections, a: nat, k: nat)
    requires NonEmpty(m)
    requires a in m && a < k <= |binary| && (k in m || k == |binary|) && forall j | j in m :: j <= a || k <= j
    ensures var e := End(m[a].regions);
      MissingAt(binary, SectionCursor(m, k), k) ==
        if Gap(m, |binary|, a, e, k) then [MissingSection(binary, e, k - e)] else []
  {
    CursorFollows(m, k, a);
  }

  lemma OnlyGaps(binary: seq<byte>, m: Sections, k: nat)
    requires SectionsOk(m, binary) && 0 in m && k <= |binary| && (k in m || k == |binary|)
    ensures forall s | s in MissingAt(binary, SectionCursor(m, k), k) :: IsMissing(binary, m, s, k + 1)
  {
    hide RegionsOk, Tiles, Contiguous, AllZero, SectionCursor;
    if k > 0 {
      var a := LastBefore(m, k);
      GapIsInserted(binary, m, a, k);
    }
  }

  lemma {:induction false} MissingAreGaps(binary: seq<byte>, m: Sections, k: nat)
    requires SectionsOk(m, binary) && 0 in m && k <= |binary|
    ensures forall s | s in MissingBefore(binary, m, k) :: IsMissing(binary, m, s, k)
  {
    hide RegionsOk, Tiles, Contiguous, AllZero, SectionCursor, MissingAt, Gap;
    if k > 0 {
      MissingAreGaps(binary, m, k - 1);
      if k - 1 in m {
        OnlyGaps(binary, m, k - 1);
      }
      forall s | s in MissingBefore(binary, m, k)
        ensures IsMissing(binary, m, s, k)
      {
        if s in MissingBefore(binary, m, k - 1) {
          assert IsMissing(binary, m, s, k - 1);
          var a: nat, e: nat, b: nat :| Gap(m, |binary|, a, e, b) && b < k - 1 && s == MissingSection(binary, e, b - e);
          assert Gap(m, |binary|, a, e, b) && b < k && s == MissingSection(binary, e, b - e);
        }
      }
    }
  }

  lemma AllAreGaps(binary: seq<byte>, m: Sections)
    requires SectionsOk(m, binary) && 0 in m
    ensures forall s | s in AllMissing(binary, m) :: IsMissing(binary, m, s, |binary| + 1)
  {
    hide RegionsOk, Tiles, Contiguous, AllZero, SectionCursor, Gap;
    var n := |binary|;
    MissingAreGaps(binary, m, n);
    OnlyGaps(binary, m, n);
    forall s | s in AllMissing(binary, m)
      ensures IsMissing(binary, m, s, n + 1)
    {
      if s in MissingBefore(binary, m, n) {
        assert IsMissing(binary, m, s, n);
        var a: nat, e: nat, b: nat :| Gap(m, n, a, e, b) && b < n && s == MissingSection(binary, e, b - e);
        assert Gap(m, n, a, e, b) && b < n + 1 && s == MissingSection(binary, e, b - e);
      }
    }
  }

  /** Every gap between sections is inserted. */
  lemma {:induction false} GapsAreMissing(binary: seq<byte>, m: Sections, k: nat, a: nat, e: nat, b: nat)
    requires SectionsOk(m, binary) && Gap(m, |binary|, a, e, b) && b < k <= |binary|
    ensures MissingSection(binary, e, b - e) in MissingBefore(binary, m, k)
  {
    hide RegionsOk, Tiles, Contiguous, AllZero, SectionCursor, MissingAt;
    if b == k - 1 {
      GapEnds(binary, m, a, e, b);
      GapIsInserted(binary, m, a, b);
    } else {
      GapsAreMissing(binary, m, k - 1, a, e, b);
    }
  }

  lemma GapEnds(binary: seq<byte>, m: Sections, a: nat, e: nat, b: nat)
    requires SectionsOk(m, binary) && Gap(m, |binary|, a, e, b)
    ensures a < e < b && e !in m
  {
    var rs := m[a].regions;
    assert Behind(rs[|rs| - 1], a);
  }

  lemma GapIsMissing(binary: seq<byte>, m: Sections, a: nat, e: nat, b: nat)
    requires SectionsOk(m, binary) && Gap(m, |binary|, a, e, b)
    ensures MissingSection(binary, e, b - e) in AllMissing(binary, m)
  {
    hide RegionsOk, Tiles, Contiguous, AllZero, SectionCursor, MissingAt;
    if b < |binary| {
      GapsAreMissing(binary, m, |binary|, a, e, b);
    } else {
      GapEnds(binary, m, a, e, b);
      GapIsInserted(binary, m, a, b);
    }
  }

  // ---- The result of the pass -------------------------------------------------------------------

  lemma {:induction false} AddAllMeans(m: Sections, ss: seq<Section>)
    requires forall s :: s in ss ==> s.regions != []
    ensures forall k | k in m :: k in AddAll(m, ss) && AddAll(m, ss)[k] == m[k]
    ensures forall k | k in AddAll(m, ss) && k !in m ::
      AddAll(m, ss)[k] in ss && AddAll(m, ss)[k].regions[0].offset == k
    ensures forall s | s in ss :: s.regions[0].offset in AddAll(m, ss)
  {
    if ss != [] {
      assert ss == ss[..|ss| - 1] + [ss[|ss| - 1]];
      AddAllMeans(m, ss[..|ss| - 1]);
    }
  }

  /** `r` is `m` with exactly one section more for every gap. */
  ghost predicate FillsGaps(binary: seq<byte>, m: Sections, r: Sections) {
    && (forall k | k in m :: k in r && r[k] == m[k])
    && (forall e | e in r && e !in m :: InGap(binary, m, e, r[e]))
    && (forall a: nat, e: nat, b: nat | Gap(m, |binary|, a, e, b) :: e in r && r[e] == MissingSection(binary, e, b - e))
  }

  ghost predicate InGap(binary: seq<byte>, m: Sections, e: nat, s: Section) {
    exists a: nat, b: nat :: Gap(m, |binary|, a, e, b) && s == MissingSection(binary, e, b - e)
  }

  lemma GapOf(binary: seq<byte>, m: Sections, e: nat, s: Section) returns (a: nat, b: nat)
    requires SectionsOk(m, binary) && InGap(binary, m, e, s)
    ensures Gap(m, |binary|, a, e, b) && a < e < b && s == MissingSection(binary, e, b - e)
    ensures s.regions != [] && End(s.regions) == b
  {
    a, b :| Gap(m, |binary|, a, e, b) && s == MissingSection(binary, e, b - e);
    GapEnds(binary, m, a, e, b);
  }

  lemma WithMissingMeans(binary: seq<byte>, m: Sections)
    requires NonEmpty(m)
    ensures var r := WithMissing(binary, m);
      && (forall k | k in m :: k in r && r[k] == m[k])
      && (forall k | k in r && k !in m ::
        r[k] in AllMissing(binary, m) && r[k].regions != [] && r[k].regions[0].offset == k)
    ensures forall s | s in AllMissing(binary, m) :: s.regions != [] && s.regions[0].offset in WithMissing(binary, m)
  {
    MissingNotEmpty(binary, m, |binary|);
    AddAllMeans(m, AllMissing(binary, m));
  }

  lemma MissingHead(binary: seq<byte>, e: nat, length: nat)
    ensures MissingSection(binary, e, length).regions != [] && MissingSection(binary, e, length).regions[0].offset == e
  {
  }

  lemma GapIsFilled(binary: seq<byte>, m: Sections, a: nat, e: nat, b: nat)
    requires SectionsOk(m, binary) && NonEmpty(m) && 0 in m && Gap(m, |binary|, a, e, b) && b >= e
    requires forall k | k in WithMissing(binary, m) && k !in m :: InGap(binary, m, k, WithMissing(binary, m)[k])
    ensures e in WithMissing(binary, m) && WithMissing(binary, m)[e] == MissingSection(binary, e, b - e)
  {
    hide *;
    var r := WithMissing(binary, m);
    WithMissingMeans(binary, m);
    GapIsMissing(binary, m, a, e, b);
    GapEnds(binary, m, a, e, b);
    MissingHead(binary, e, b - e);
    var a2, b2 := GapOf(binary, m, e, r[e]);
    OneGap(m, |binary|, a, a2, e, b, b2);
  }

  lemma OneGap(m: Sections, n: nat, a: nat, a2: nat, e: nat, b: nat, b2: nat)
    requires Gap(m, n, a, e, b) && Gap(m, n, a2, e, b2) && a < e < b && a2 < e < b2
    ensures a == a2 && b == b2
  {
  }

  lemma NewAreGaps(binary: seq<byte>, m: Sections)
    requires SectionsOk(m, binary) && NonEmpty(m) && 0 in m
    ensures forall e | e in WithMissing(binary, m) && e !in m :: InGap(binary, m, e, WithMissing(binary, m)[e])
  {
    hide *;
    var r := WithMissing(binary, m);
    WithMissingMeans(binary, m);
    AllAreGaps(binary, m);
    forall e | e in r && e !in m
      ensures InGap(binary, m, e, r[e])
    {
      MissingIsInGap(binary, m, r[e], |binary| + 1);
    }
  }

  /** The pass only adds: what it adds is exactly one section for every gap. */
  lemma PassFillsGaps(binary: seq<byte>, m: Sections)
    requires SectionsOk(m, binary) && 0 in m
    ensures FillsGaps(binary, m, WithMissing(binary, m))
  {
    var r := WithMissing(binary, m);
    WithMissingMeans(binary, m);
    NewAreGaps(binary, m);
    hide AllMissing, WithMissing, Gap, MissingSection, InGap, SectionsOk, NonEmpty;
    forall a: nat, e: nat, b: nat | Gap(m, |binary|, a, e, b)
      ensures e in r && e <= b && r[e] == MissingSection(binary, e, b - e)
    {
      GapEnds(binary, m, a, e, b);
      GapIsFilled(binary, m, a, e, b);
    }
  }

  lemma MissingIsInGap(binary: seq<byte>, m: Sections, s: Section, top: nat)
    requires IsMissing(binary, m, s, top)
    ensures s.regions != [] && InGap(binary, m, s.regions[0].offset, s)
  {
    var a: nat, e: nat, b: nat :| Gap(m, |binary|, a, e, b) && b < top && s == MissingSection(binary, e, b - e);
  }

  /** On any map of sections the pass leaves no two neighbouring bytes uncovered. */
  lemma NoWideGaps(binary: seq<byte>, m: Sections, p: nat)
    requires SectionsOk(m, binary) && 0 in m && p + 1 < |binary|
    ensures Covered(WithMissing(binary, m), p) || Covered(WithMissing(binary, m), p + 1)
  {
    hide AllMissing, WithMissing, Covered, Gap, InGap, SectionsOk, NonEmpty, AllZero;
    AllBelow(binary, m);
    var r := WithMissing(binary, m);
    PassFillsGaps(binary, m);
    var a := LastBefore(m, p + 1);
    SectionReaches(binary, m, a);
    var e := End(m[a].regions);
    if p < e {
      Covers(r, a, p);
    } else if p + 1 in m {
      SectionReaches(binary, m, p + 1);
      Covers(r, p + 1, p + 1);
    } else {
      var b := NextStart(m, |binary|, p + 2);
      IsGap(m, |binary|, a, e, b, p);
      Covers(r, e, p);
    }
  }

  lemma AllBelow(binary: seq<byte>, m: Sections)
    requires SectionsOk(m, binary)
    ensures NonEmpty(m) && forall k | k in m :: k < |binary|
  {
  }

  lemma SectionReaches(binary: seq<byte>, m: Sections, k: nat)
    requires SectionsOk(m, binary) && k in m
    ensures m[k].regions != [] && End(m[k].regions) > k
  {
    assert Behind(m[k].regions[|m[k].regions| - 1], k);
  }

  lemma Covers(m: Sections, k: nat, p: nat)
    requires k in m && m[k].regions != [] && k <= p < End(m[k].regions)
    ensures Covered(m, p)
  {
  }

  lemma IsGap(m: Sections, n: nat, a: nat, e: nat, b: nat, p: nat)
    requires a in m && m[a].regions != [] && e == End(m[a].regions) <= p && p + 2 <= b <= n && p + 1 !in m
    requires (b in m || b == n) && (forall k | k in m :: p + 2 <= k < n ==> b <= k) && forall k | k in m :: k < n
    requires forall j | j in m :: j <= a || p + 1 <= j
    ensures Gap(m, n, a, e, b)
  {
  }

  /** The least start from `p` on, or the end of the binary. */
  function NextStart(m: Sections, n: nat, p: nat): (b: nat)
    requires p <= n
    ensures p <= b <= n && (b in m || b == n)
    ensures forall k | k in m :: p <= k < n ==> b <= k
    decreases n - p
  {
    if p == n || p in m then p else NextStart(m, n, p + 1)
  }

  /** Two sections of the result, of which one at least was added. */
  lemma AddedIsDisjoint(binary: seq<byte>, m: Sections, r: Sections, j: nat, k: nat)
    requires SectionsOk(m, binary) && Disjoint(m) && FillsGaps(binary, m, r)
    requires j in r && k in r && j < k && (j !in m || k !in m)
    ensures r[j].regions != [] ==> End(r[j].regions) <= k
  {
    hide InGap, MissingSection, SectionsOk;
    if j !in m {
      var a, b := GapOf(binary, m, j, r[j]);
      if k !in m {
        var a2, b2 := GapOf(binary, m, k, r[k]);
      }
    } else {
      var a2, b2 := GapOf(binary, m, k, r[k]);
    }
  }

  /** Disjoint sections stay disjoint. */
  lemma StaysDisjoint(binary: seq<byte>, m: Sections)
    requires SectionsOk(m, binary) && 0 in m && Disjoint(m)
    ensures Disjoint(WithMissing(binary, m))
  {
    hide AllMissing, AddAll, WithMissing, InGap, Gap;
    var r := WithMissing(binary, m);
    PassFillsGaps(binary, m);
    forall j, k | j in r && k in r && j < k
      ensures r[j].regions != [] ==> End(r[j].regions) <= k
    {
      if j !in m || k !in m {
        AddedIsDisjoint(binary, m, r, j, k);
      }
    }
  }

  /** Added sections are within the binary. */
  lemma PassKeepsOk(binary: seq<byte>, m: Sections)
    requires SectionsOk(m, binary) && 0 in m
    ensures SectionsOk(WithMissing(binary, m), binary)
  {
    hide AllMissing, AddAll, WithMissing, InGap, AllZero;
    var r := WithMissing(binary, m);
    PassFillsGaps(binary, m);
    forall k | k in r
      ensures SectionOk(k, r[k], binary)
    {
      if k !in m {
        var a, b := GapOf(binary, m, k, r[k]);
        OneTiles(r[k].regions[0]);
      }
    }
  }

  /**
   Both passes one after the other: a section of the walk stays where it is and what it is, none of
   its regions is lost, and it is left alone if it has no gaps. If its regions stand apart from each
   other, they have no gaps afterwards.
   */
  lemma PassesKeep(binary: seq<byte>, m: Sections, k: nat)
    requires NonEmpty(m) && k in m
    ensures var r := WithMissing(binary, FilledSections(binary, m));
      && k in r && r[k].typ == m[k].typ && r[k].regions != []
      && (forall region | region in m[k].regions :: region in r[k].regions)
      && (forall a: nat, b: nat :: Tiles(m[k].regions, a, b) ==> r[k] == m[k])
      && (Apart(m[k].regions, |binary|) ==>
           Tiles(r[k].regions, m[k].regions[0].offset, End(m[k].regions)) && Subsequence(m[k].regions, r[k].regions))
  {
    hide WithMissing, Tiles, Apart, Filled, AllMissing, Subsequence;
    var rs := m[k].regions;
    WithMissingMeans(binary, FilledSections(binary, m));
    forall region | region in rs
      ensures region in Filled(binary, rs)
    {
      FilledKeeps(binary, rs, region);
    }
    forall a: nat, b: nat | Tiles(rs, a, b)
      ensures Filled(binary, rs) == rs
    {
      TiledStays(binary, rs, a, b);
    }
    if Apart(rs, |binary|) {
      FilledTiles(binary, rs);
    }
  }

  const SINGLE_BYTE_GAP: Sections :=
    map[0 := Section(Header, [Region(0, 4, Chars, 4, 0)]), 5 := Section(TableSection, [Region(5, 3, Chars, 3, 0)])]

  lemma NothingToFill(a: nat, e: nat, b: nat)
    ensures !Gap(SINGLE_BYTE_GAP, 8, a, e, b)
  {
    assert 0 in SINGLE_BYTE_GAP && 5 in SINGLE_BYTE_GAP;
  }

  lemma NoGapAt(binary: seq<byte>, e: nat, s: Section)
    requires |binary| == 8
    ensures !InGap(binary, SINGLE_BYTE_GAP, e, s)
  {
    forall a: nat, b: nat
      ensures !Gap(SINGLE_BYTE_GAP, 8, a, e, b)
    {
      NothingToFill(a, e, b);
    }
  }

  lemma SingleByteGapIsOk(binary: seq<byte>)
    requires |binary| == 8
    ensures SectionsOk(SINGLE_BYTE_GAP, binary)
  {
    hide Get, GetSigned;
    OneTiles(Region(0, 4, Chars, 4, 0));
  }

  /** A gap of one byte stays: the byte at 4 is covered by no section, before or after. */
  lemma SingleByteGapStays(binary: seq<byte>)
    requires |binary| == 8
    ensures SectionsOk(SINGLE_BYTE_GAP, binary) && Disjoint(SINGLE_BYTE_GAP)
    ensures WithMissing(binary, SINGLE_BYTE_GAP) == SINGLE_BYTE_GAP && !Covered(WithMissing(binary, SINGLE_BYTE_GAP), 4)
  {
    hide WithMissing, AllMissing, InGap, Gap, SectionsOk;
    var m, r := SINGLE_BYTE_GAP, WithMissing(binary, SINGLE_BYTE_GAP);
    SingleByteGapIsOk(binary);
    PassFillsGaps(binary, m);
    forall e | e in r
      ensures e in m
    {
      NoGapAt(binary, e, r[e]);
    }
    assert r == m;
  }
}
