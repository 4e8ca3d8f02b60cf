/**
 The names of enum values in generated C++ code: a table with empty names for the values in
 between, or a switch when the values are too sparse.
 */
module EnumTables {

  datatype EnumVal = EnumVal(value: int, name: string)

  const TWO64 := 0x1_0000_0000_0000_0000

  /** Values of a 64-bit type, sorted and distinct. */
  predicate Sorted(vals: seq<EnumVal>) {
    forall i, j :: 0 <= i < j < |vals| ==> vals[i].value < vals[j].value
  }

  predicate Fits(vals: seq<EnumVal>, isUInt64: bool) {
    forall i :: 0 <= i < |vals| ==>
      if isUInt64 then 0 <= vals[i].value < TWO64 else -(TWO64 / 2) <= vals[i].value < TWO64 / 2
  }

  /** A conversion to an unsigned 64-bit integer. */
  function Cast(x: int): (r: nat)
    ensures r < TWO64
  {
    x % TWO64
  }

  /** The distance of two values, by unsigned subtraction. */
  function Distance(a: int, b: int): nat {
    if a < b then Cast(Cast(b) - Cast(a)) else Cast(Cast(a) - Cast(b))
  }

  /** Unsigned subtraction of two values of one 64-bit type is their distance. */
  lemma DistanceMeans(a: int, b: int)
    requires a <= b && b - a < TWO64
    ensures Distance(a, b) == b - a && Cast(Cast(b) - Cast(a)) == b - a
  {
    CastDifference(b, a);
    if a == b {
    }
  }

  lemma CastDifference(b: int, a: int)
    requires 0 <= b - a < TWO64
    ensures (b % TWO64 - a % TWO64) % TWO64 == b - a
  {
    var k := b / TWO64 - a / TWO64;
    assert b - a == (b % TWO64 - a % TWO64) + k * TWO64;
    var d := b % TWO64 - a % TWO64;
    assert -TWO64 < d < TWO64;
  }

  // ---- The generated code -----------------------------------------------------------------

  /** Either form of EnumName; the table stands without its closing null pointer. */
  datatype Code =
    | Table(declaredSize: nat, names: seq<string>, min: int, max: int)
    | Switch(cases: seq<EnumVal>)

  /** The case for `e`, or the default. */
  function SwitchName(cases: seq<EnumVal>, e: int): string {
    if cases == [] then ""
    else if cases[0].value == e then cases[0].name
    else SwitchName(cases[1..], e)
  }

  /** What the generated function returns for `e`; the index is computed in unsigned arithmetic. */
  function EnumName(c: Code, e: int): string {
    match c
    case Switch(cases) => SwitchName(cases, e)
    case Table(_, names, min, max) =>
      if e < min || max < e then ""
      else
        var index := Cast(Cast(e) - Cast(min));
        if index < |names| then names[index] else "out of range"
  }

  lemma {:induction false} SwitchFinds(cases: seq<EnumVal>, i: nat)
    requires Sorted(cases) && i < |cases|
    ensures SwitchName(cases, cases[i].value) == cases[i].name
  {
    if i > 0 {
      SwitchFinds(cases[1..], i - 1);
    }
  }

  lemma {:induction false} SwitchMisses(cases: seq<EnumVal>, e: int)
    requires forall i :: 0 <= i < |cases| ==> cases[i].value != e
    ensures SwitchName(cases, e) == ""
  {
    if cases != [] {
      SwitchMisses(cases[1..], e);
    }
  }

  /** The names of the values from the first up to `top`, with empty ones in between. */
  ghost predicate Tabulates(vals: seq<EnumVal>, names: seq<string>, n: nat)
    requires 0 < n <= |vals|
  {
    && |names| == vals[n - 1].value - vals[0].value + 1
    && forall k :: 0 <= k < |names| ==> names[k] == SwitchName(vals, vals[0].value + k)
  }

  lemma NoneBetween(vals: seq<EnumVal>, i: nat, e: int)
    requires Sorted(vals) && 0 < i < |vals| && vals[i - 1].value < e < vals[i].value
    ensures SwitchName(vals, e) == ""
  {
    SwitchMisses(vals, e);
  }

  /** The nested loop: a gap of empty names before each value but the first. */
  method FillTable(vals: seq<EnumVal>, isUInt64: bool) returns (names: seq<string>)
    requires vals != [] && Sorted(vals) && Fits(vals, isUInt64)
    ensures Tabulates(vals, names, |vals|)
  {
    names := [];
    var val := vals[0];
    for i := 0 to |vals|
      invariant val == if i == 0 then vals[0] else vals[i - 1]
      invariant i == 0 ==> names == []
      invariant i > 0 ==> Tabulates(vals, names, i)
    {
      var enumValue := vals[i];
      DistanceMeans(val.value, enumValue.value);
      var k := Distance(val.value, enumValue.value);
      ghost var before := |names|;
      while k > 1
        invariant i == 0 ==> k == 0 && names == []
        invariant i > 0 ==> 1 <= k <= enumValue.value - val.value
        invariant i > 0 ==> |names| == enumValue.value - vals[0].value - k + 1
        invariant forall j :: 0 <= j < |names| ==> names[j] == SwitchName(vals, vals[0].value + j)
      {
        NoneBetween(vals, i, vals[0].value + |names|);
        names := names + [""];
        k := k - 1;
      }
      val := enumValue;
      SwitchFinds(vals, i);
      names := names + [enumValue.name];
    }
  }

  const MAX_SPARSENESS := 5

  /** The table has as many entries as its declared size says, less the null pointer at its end. */
  method GenEnumStringTable(vals: seq<EnumVal>, isUInt64: bool) returns (code: Code)
    requires vals != [] && Sorted(vals) && Fits(vals, isUInt64)
    ensures code.Table? <==> (vals[|vals| - 1].value - vals[0].value) / |vals| < MAX_SPARSENESS
    ensures code.Table? ==> |code.names| + 1 == code.declaredSize == vals[|vals| - 1].value - vals[0].value + 2
    ensures forall e :: EnumName(code, e) == SwitchName(vals, e)
  {
    var min, max := vals[0].value, vals[|vals| - 1].value;
    DistanceMeans(min, max);
    var range := Distance(min, max);
    if range / |vals| < MAX_SPARSENESS {
      var names := FillTable(vals, isUInt64);
      code := Table(range + 1 + 1, names, min, max);
      forall e
        ensures EnumName(code, e) == SwitchName(vals, e)
      {
        TableIsSwitch(vals, names, range + 2, e);
      }
    } else {
      code := Switch(vals);
    }
  }

  /** The range-checked lookup returns what the switch would, for every value, declared or not. */
  lemma TableIsSwitch(vals: seq<EnumVal>, names: seq<string>, size: nat, e: int)
    requires vals != [] && Sorted(vals) && Tabulates(vals, names, |vals|)
    requires vals[|vals| - 1].value - vals[0].value < TWO64
    ensures EnumName(Table(size, names, vals[0].value, vals[|vals| - 1].value), e) == SwitchName(vals, e)
  {
    var min, max := vals[0].value, vals[|vals| - 1].value;
    if e < min || max < e {
      forall i | 0 <= i < |vals|
        ensures vals[i].value != e
      {
        assert i > 0 ==> min < vals[i].value;
        assert i < |vals| - 1 ==> vals[i].value < max;
      }
      SwitchMisses(vals, e);
    } else {
      DistanceMeans(min, e);
      assert names[e - min] == SwitchName(vals, min + (e - min));
    }
  }
}
