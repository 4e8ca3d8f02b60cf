/**
 The Go reader. Positions are uint32 and wrap; `None` is an index out of range, which panics in Go.
 ByteVector never panics: its `None` is nil.
 */
module GoTable {
  import opened Codec
  import opened Wrappers

  function Wrap32(x: int): (r: nat)
    ensures r < 0x1_0000_0000
  {
    if 0 <= x < 0x1_0000_0000 then x else x % 0x1_0000_0000
  }

  function Load(buf: seq<byte>, pos: nat, k: nat): Option<nat> {
    if pos + k <= |buf| then Some(Get(buf, pos, k)) else None
  }

  function LoadSOffset(buf: seq<byte>, pos: nat): Option<int> {
    if pos + 4 <= |buf| then Some(GetSigned(buf, pos, 4)) else None
  }

  /** Table.Offset: where the field with the given vtable offset is, relative to the table; 0 if absent. */
  function Offset(buf: seq<byte>, pos: nat, vtableOffset: nat): Option<nat> {
    match LoadSOffset(buf, pos)
    case None => None
    case Some(soffset) =>
      var vtable := Wrap32(pos - soffset);
      match Load(buf, vtable, 2)
      case None => None
      case Some(size) => if vtableOffset < size then Load(buf, Wrap32(vtable + vtableOffset), 2) else Some(0)
  }

  /** GetBool .. GetFloat64, as the scalar's value; a floating one as its bit pattern. */
  function LoadAs(buf: seq<byte>, pos: nat, kind: Kind, k: nat): Option<int> {
    if pos + k <= |buf| then Some(if kind.Signed? then GetSigned(buf, pos, k) else Get(buf, pos, k)) else None
  }

  /** GetBoolSlot .. GetFloat64Slot. */
  function GetSlot(buf: seq<byte>, pos: nat, slot: nat, kind: Kind, k: nat, d: int): Option<int> {
    match Offset(buf, pos, slot)
    case None => None
    case Some(off) =>
      if off == 0 then Some(d) else LoadAs(buf, Wrap32(pos + off), kind, k)
  }

  function Indirect(buf: seq<byte>, off: nat): Option<nat> {
    match Load(buf, off, 4)
    case None => None
    case Some(rel) => Some(Wrap32(off + rel))
  }

  function ByteVector(buf: seq<byte>, off: nat): Option<seq<byte>> {
    var n := |buf|;
    if n < 4 || off > n - 4 then None
    else
      var at := Wrap32(off + Get(buf, off, 4));
      if at > n - 4 then None
      else
        var start, length := at + 4, Get(buf, at, 4);
        if length > n - start then None else Some(buf[start..start + length])
  }

  function VectorLen(buf: seq<byte>, pos: nat, off: nat): Option<nat> {
    match Indirect(buf, Wrap32(off + pos))
    case None => None
    case Some(at) => Load(buf, at, 4)
  }

  /** Table.Vector: the start of the vector's elements. */
  function Vector(buf: seq<byte>, pos: nat, off: nat): Option<nat> {
    match Indirect(buf, Wrap32(off + pos))
    case None => None
    case Some(at) => Some(Wrap32(at + 4))
  }

  /** Table.Union: the position that the other table is set to. */
  function Union(buf: seq<byte>, pos: nat, off: nat): Option<nat> {
    Indirect(buf, Wrap32(off + pos))
  }

  // ---- go/lib.go ---------------------------------------------------------------

  function GetRootAs(buf: seq<byte>, offset: nat): Option<nat> {
    match Load(buf, offset, 4)
    case None => None
    case Some(n) => Some(Wrap32(n + offset))
  }

  function GetSizePrefixedRootAs(buf: seq<byte>, offset: nat): Option<nat> {
    match Load(buf, Wrap32(offset + 4), 4)
    case None => None
    case Some(n) => Some(Wrap32(n + offset + 4))
  }

  function GetSizePrefix(buf: seq<byte>, offset: nat): Option<nat> {
    Load(buf, offset, 4)
  }

  function GetBufferIdentifier(buf: seq<byte>): Option<seq<byte>> {
    if 8 <= |buf| then Some(buf[4..8]) else None
  }

  function GetSizePrefixedBufferIdentifier(buf: seq<byte>): Option<seq<byte>> {
    if 12 <= |buf| then Some(buf[8..12]) else None
  }
}
