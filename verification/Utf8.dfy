/** What the check for UTF-8 accepts: the encodings of all code points but the surrogates, and nothing else. */
module Utf8 {
  import opened Codec
  import opened PhpLayout

  /** A code point that is not a surrogate. */
  predicate IsScalarValue(p: int) {
    0 <= p <= 0x10_ffff && !(0xd800 <= p <= 0xdfff)
  }

  /** The encoding of a code point, by section 3 of RFC 3629: six bits to each byte behind the first. */
  function Encoded(p: int): (bs: seq<byte>)
    requires IsScalarValue(p)
    ensures 1 <= |bs| <= 4
  {
    if p < 0x80 then [p]
    else if p < 0x800 then [0xc0 + p / 0x40, 0x80 + p % 0x40]
    else if p < 0x1_0000 then [0xe0 + p / 0x1000, 0x80 + p / 0x40 % 0x40, 0x80 + p % 0x40]
    else [0xf0 + p / 0x4_0000, 0x80 + p / 0x1000 % 0x40, 0x80 + p / 0x40 % 0x40, 0x80 + p % 0x40]
  }

  predicate AreScalarValues(ps: seq<int>) {
    forall i :: 0 <= i < |ps| ==> IsScalarValue(ps[i])
  }

  function EncodedAll(ps: seq<int>): seq<byte>
    requires AreScalarValues(ps)
  {
    if ps == [] then [] else Encoded(ps[0]) + EncodedAll(ps[1..])
  }

  /** Six more bits. */
  function Shifted(high: nat, low: byte): nat
    requires 0x80 <= low < 0xc0
  {
    high * 0x40 + (low - 0x80)
  }

  lemma ShiftsBack(high: nat, low: byte)
    requires 0x80 <= low < 0xc0
    ensures Shifted(high, low) / 0x40 == high && 0x80 + Shifted(high, low) % 0x40 == low
  {
  }

  lemma ThreeBytes(a: byte, b: byte, c: byte, p: nat)
    requires 0xe0 <= a < 0xf0 && 0x80 <= b < 0xc0 && 0x80 <= c < 0xc0
    requires p == Shifted(Shifted(a - 0xe0, b), c) && IsScalarValue(p) && p >= 0x800
    ensures Encoded(p) == [a, b, c]
  {
    ShiftsBack(a - 0xe0, b);
    ShiftsBack(Shifted(a - 0xe0, b), c);
    assert p / 0x40 / 0x40 == p / 0x1000;
    hide Shifted;
  }

  lemma FourBytes(a: byte, b: byte, c: byte, d: byte, p: nat)
    requires 0xf0 <= a < 0xf8 && 0x80 <= b < 0xc0 && 0x80 <= c < 0xc0 && 0x80 <= d < 0xc0
    requires p == Shifted(Shifted(Shifted(a - 0xf0, b), c), d) && IsScalarValue(p) && p >= 0x1_0000
    ensures Encoded(p) == [a, b, c, d]
  {
    ShiftsBack(a - 0xf0, b);
    ShiftsBack(Shifted(a - 0xf0, b), c);
    ShiftsBack(Shifted(Shifted(a - 0xf0, b), c), d);
    assert p / 0x40 / 0x40 == p / 0x1000 && p / 0x1000 / 0x40 == p / 0x4_0000;
    hide Shifted;
  }

  /** The character at the front is one that is encoded so. */
  lemma CharacterIsEncoded(str: seq<byte>) returns (p: int)
    requires CharLength(str) > 0
    ensures IsScalarValue(p) && Encoded(p) == str[..CharLength(str)]
  {
    var n := CharLength(str);
    if n == 1 {
      p := str[0];
    } else if n == 2 {
      p := Shifted(str[0] - 0xc0, str[1]);
    } else if n == 3 {
      p := Shifted(Shifted(str[0] - 0xe0, str[1]), str[2]);
      ThreeBytes(str[0], str[1], str[2], p);
    } else {
      p := Shifted(Shifted(Shifted(str[0] - 0xf0, str[1]), str[2]), str[3]);
      FourBytes(str[0], str[1], str[2], str[3], p);
    }
  }

  /** An encoded character is found, whatever stands behind it. */
  lemma EncodedIsCharacter(p: int, rest: seq<byte>)
    requires IsScalarValue(p)
    ensures CharLength(Encoded(p) + rest) == |Encoded(p)|
  {
    var str, bs := Encoded(p) + rest, Encoded(p);
    assert forall i :: 0 <= i < |bs| ==> str[i] == bs[i];
    EncodedIsRight(p);
    hide Encoded;
  }

  /** The bytes of an encoding are in the ranges that the check asks for. */
  lemma EncodedIsRight(p: int)
    requires IsScalarValue(p)
    ensures CharLength(Encoded(p)) == |Encoded(p)|
  {
  }

  lemma {:induction false} Decodes(str: seq<byte>) returns (ps: seq<int>)
    requires IsUtf8(str)
    ensures AreScalarValues(ps) && EncodedAll(ps) == str
    decreases |str|
  {
    hide CharLength, Encoded, IsScalarValue;
    if str == [] {
      ps := [];
    } else {
      var n := CharLength(str);
      var p := CharacterIsEncoded(str);
      var more := Decodes(str[n..]);
      ps := [p] + more;
      assert ps[1..] == more && str == str[..n] + str[n..];
    }
  }

  lemma {:induction false} Encodes(ps: seq<int>)
    requires AreScalarValues(ps)
    ensures IsUtf8(EncodedAll(ps))
    decreases |ps|
  {
    hide CharLength, Encoded, IsScalarValue;
    if ps != [] {
      var str, rest := EncodedAll(ps), EncodedAll(ps[1..]);
      EncodedIsCharacter(ps[0], rest);
      Encodes(ps[1..]);
      assert str[|Encoded(ps[0])|..] == rest;
    }
  }

  /** A string is accepted exactly if it is the encoding of some code points, none of them a surrogate. */
  lemma IsUtf8Means(str: seq<byte>)
    ensures IsUtf8(str) <==> exists ps: seq<int> :: AreScalarValues(ps) && EncodedAll(ps) == str
  {
    hide IsUtf8, EncodedAll, IsScalarValue, AreScalarValues;
    if IsUtf8(str) {
      var ps := Decodes(str);
    }
    if ps: seq<int> :| AreScalarValues(ps) && EncodedAll(ps) == str {
      Encodes(ps);
    }
  }
}
