/**
 * NDN TLV ("Variable Size Encoding for type and length" and "Non-Negative Integer Encoding" of the
 * NDN Packet Format Specification v0.3) and the buffer the printers prepend into.
 */
module Tlv {
  import opened Names

  type TlvType = t: int | 1 <= t <= 0xFFFF_FFFF witness 1
  datatype Block = Block(typ: TlvType, value: seq<byte>)

  const SIZE_LIMIT := 0x1_0000_0000_0000_0000
  const MAX_NDN_PACKET_SIZE := 8800

  // ---------- numbers ----------

  function Pow256(w: nat): nat { if w == 0 then 1 else 256 * Pow256(w - 1) }

  /** The last w bytes of n, most significant first. */
  function BigEndian(n: nat, w: nat): (s: seq<byte>)
    ensures |s| == w
  {
    if w == 0 then [] else BigEndian(n / 256, w - 1) + [n % 256]
  }

  function Value(s: seq<byte>): nat {
    if s == [] then 0 else 256 * Value(s[..|s| - 1]) + s[|s| - 1]
  }

  lemma {:induction false} ValueOfBigEndian(n: nat, w: nat)
    requires n < Pow256(w)
    ensures Value(BigEndian(n, w)) == n
  {
    if w > 0 {
      ValueOfBigEndian(n / 256, w - 1);
      assert BigEndian(n, w)[..w - 1] == BigEndian(n / 256, w - 1);
    }
  }

  lemma {:induction false} ValueBounded(s: seq<byte>)
    ensures Value(s) < Pow256(|s|)
  {
    if s != [] { ValueBounded(s[..|s| - 1]); }
  }

  lemma Powers()
    ensures Pow256(1) == 0x100 && Pow256(2) == 0x1_0000 && Pow256(4) == 0x1_0000_0000 && Pow256(8) == SIZE_LIMIT
  {
    assert Pow256(3) == 0x100_0000 && Pow256(5) == 0x100_0000_0000;
    assert Pow256(6) == 0x1_0000_0000_0000 && Pow256(7) == 0x100_0000_0000_0000;
  }

  function NniWidth(n: nat): nat {
    if n < 0x100 then 1 else if n < 0x1_0000 then 2 else if n < 0x1_0000_0000 then 4 else 8
  }

  function Nni(n: uint64): seq<byte> { BigEndian(n, NniWidth(n)) }

  function ReadNni(v: seq<byte>): (n: Option<uint64>) {
    if |v| == 1 || |v| == 2 || |v| == 4 || |v| == 8 then
      ValueBounded(v);
      Powers();
      Some(Value(v))
    else None
  }

  lemma NniRoundTrip(n: uint64)
    ensures ReadNni(Nni(n)) == Some(n)
  {
    Powers();
    ValueOfBigEndian(n, NniWidth(n));
  }

  function VarSize(n: nat): nat {
    if n < 253 then 1 else if n < 0x1_0000 then 3 else if n < 0x1_0000_0000 then 5 else 9
  }

  /** prependVarNumber; 64-bit, so larger numbers would be cut off. */
  function VarNumber(n: nat): (s: seq<byte>)
    ensures |s| == VarSize(n)
  {
    if n < 253 then [n]
    else if n < 0x1_0000 then [253] + BigEndian(n, 2)
    else if n < 0x1_0000_0000 then [254] + BigEndian(n, 4)
    else [255] + BigEndian(n, 8)
  }

  /** A variable-size number and how many bytes it took; only the shortest form is accepted. */
  function ReadVarNumber(s: seq<byte>): (r: Option<(nat, nat)>)
    ensures r.Some? ==> 1 <= r.value.1 <= |s|
  {
    if s == [] then None
    else if s[0] < 253 then Some((s[0], 1))
    else
      var w := if s[0] == 253 then 2 else if s[0] == 254 then 4 else 8;
      if |s| < 1 + w then None
      else
        var n := Value(s[1..1 + w]);
        if VarSize(n) == 1 + w then Some((n, 1 + w)) else None
  }

  lemma VarNumberRoundTrip(n: nat, rest: seq<byte>)
    requires n < SIZE_LIMIT
    ensures ReadVarNumber(VarNumber(n) + rest) == Some((n, VarSize(n)))
  {
    if n >= 253 {
      Powers();
      var w := VarSize(n) - 1;
      ValueOfBigEndian(n, w);
      var s := VarNumber(n) + rest;
      assert s[1..1 + w] == BigEndian(n, w);
    }
  }

  // ---------- blocks ----------

  function Wire(b: Block): (s: seq<byte>)
    ensures |s| == VarSize(b.typ) + VarSize(|b.value|) + |b.value|
  {
    VarNumber(b.typ) + VarNumber(|b.value|) + b.value
  }

  /** Concatenated wires of a list of blocks, built back to front as the printers do. */
  function Wires(bs: seq<Block>): seq<byte> {
    if bs == [] then [] else Wire(bs[0]) + Wires(bs[1..])
  }

  function ParseBlock(s: seq<byte>): (r: Option<(Block, nat)>)
    ensures r.Some? ==> 2 <= r.value.1 <= |s|
  {
    var t := ReadVarNumber(s);
    if t.None? || !(1 <= t.value.0 <= 0xFFFF_FFFF) then None
    else
      var l := ReadVarNumber(s[t.value.1..]);
      if l.None? then None
      else
        var start := t.value.1 + l.value.1;
        if start + l.value.0 > |s| then None
        else Some((Block(t.value.0, s[start..start + l.value.0]), start + l.value.0))
  }

  /** Block::parse: the sequence of elements in a value, None when it does not parse. */
  function Elements(s: seq<byte>): Option<seq<Block>>
    decreases |s|
  {
    if s == [] then Some([])
    else
      var b := ParseBlock(s);
      if b.None? then None
      else
        var rest := Elements(s[b.value.1..]);
        if rest.None? then None else Some([b.value.0] + rest.value)
  }

  lemma ParseWire(b: Block, rest: seq<byte>)
    requires |b.value| < SIZE_LIMIT
    ensures ParseBlock(Wire(b) + rest) == Some((b, |Wire(b)|))
  {
    var s := Wire(b) + rest;
    var t, l := VarNumber(b.typ), VarNumber(|b.value|);
    assert s == t + (l + b.value + rest);
    VarNumberRoundTrip(b.typ, l + b.value + rest);
    assert s[|t|..] == l + (b.value + rest);
    VarNumberRoundTrip(|b.value|, b.value + rest);
    assert s[|t| + |l|..|t| + |l| + |b.value|] == b.value;
  }

  lemma {:induction false} WiresLength(bs: seq<Block>)
    ensures forall b :: b in bs ==> |b.value| < |Wires(bs)|
  {
    if bs != [] { WiresLength(bs[1..]); }
  }

  /** Parsing what was printed returns the same elements in the same order. */
  lemma {:induction false} ElementsOfWires(bs: seq<Block>)
    requires |Wires(bs)| < SIZE_LIMIT
    ensures Elements(Wires(bs)) == Some(bs)
  {
    if bs != [] {
      var s := Wire(bs[0]) + Wires(bs[1..]);
      assert s == Wires(bs) && |s| == |Wire(bs[0])| + |Wires(bs[1..])|;
      ParseWire(bs[0], Wires(bs[1..]));
      ElementsOfWires(bs[1..]);
      assert s[|Wire(bs[0])|..] == Wires(bs[1..]);
      assert bs == [bs[0]] + bs[1..];
    }
  }

  /** A value that fits in memory unpacks into its blocks, each of which fits as well. */
  lemma Unpack(bs: seq<Block>)
    requires |Wires(bs)| < SIZE_LIMIT
    ensures Elements(Wires(bs)) == Some(bs) && forall b :: b in bs ==> |b.value| < SIZE_LIMIT
  {
    ElementsOfWires(bs);
    WiresLength(bs);
  }

  lemma {:induction false} WiresAppend(a: seq<Block>, b: seq<Block>)
    ensures Wires(a + b) == Wires(a) + Wires(b)
  {
    if a == [] {
      assert a + b == b;
    } else {
      assert (a + b)[0] == a[0] && (a + b)[1..] == a[1..] + b;
      WiresAppend(a[1..], b);
    }
  }

  lemma WiresOne(b: Block)
    ensures Wires([b]) == Wire(b)
  {
    assert [b][1..] == [];
    assert Wires([]) == [];
  }

  lemma WiresCons(b: Block, bs: seq<Block>)
    ensures Wires([b] + bs) == Wire(b) + Wires(bs)
  {
    assert ([b] + bs)[1..] == bs;
  }

  // ---------- names ----------

  const NAME_TYPE: TlvType := 7

  function ComponentBlocks(n: Name): seq<Block> {
    seq(|n|, i requires 0 <= i < |n| => Block(n[i].typ, n[i].value))
  }

  function NameBlock(n: Name): Block { Block(NAME_TYPE, Wires(ComponentBlocks(n))) }

  function BlocksToName(bs: seq<Block>): Option<Name> {
    if bs == [] then Some([])
    else if bs[0].typ > 0xFFFF then None
    else
      var rest := BlocksToName(bs[1..]);
      if rest.None? then None else Some([Component(bs[0].typ, bs[0].value)] + rest.value)
  }

  function ReadName(b: Block): Option<Name> {
    if b.typ != NAME_TYPE then None
    else
      var elements := Elements(b.value);
      if elements.None? then None else BlocksToName(elements.value)
  }

  lemma {:induction false} ComponentsRoundTrip(n: Name)
    ensures BlocksToName(ComponentBlocks(n)) == Some(n)
  {
    if n != [] {
      assert ComponentBlocks(n)[1..] == ComponentBlocks(n[1..]);
      ComponentsRoundTrip(n[1..]);
      assert n == [n[0]] + n[1..];
    }
  }

  lemma NameRoundTrip(n: Name)
    requires |NameBlock(n).value| < SIZE_LIMIT
    ensures ReadName(NameBlock(n)) == Some(n)
  {
    ElementsOfWires(ComponentBlocks(n));
    ComponentsRoundTrip(n);
  }

  // ---------- the buffer ----------

  class EncodingBuffer {
    var bytes: seq<byte>

    constructor ()
      ensures bytes == []
    {
      bytes := [];
    }

    method PrependBytes(s: seq<byte>) returns (k: nat)
      modifies this
      ensures bytes == s + old(bytes) && k == |s|
    {
      bytes := s + bytes;
      k := |s|;
    }

    method PrependVarNumber(n: nat) returns (k: nat)
      modifies this
      ensures bytes == VarNumber(n) + old(bytes) && k == VarSize(n)
    {
      bytes := VarNumber(n) + bytes;
      k := VarSize(n);
    }

    method PrependBlock(b: Block) returns (k: nat)
      modifies this
      ensures bytes == Wire(b) + old(bytes) && k == |Wire(b)|
    {
      bytes := Wire(b) + bytes;
      k := |Wire(b)|;
    }

    method PrependNniBlock(t: TlvType, n: uint64) returns (k: nat)
      modifies this
      ensures bytes == Wire(Block(t, Nni(n))) + old(bytes) && k == |Wire(Block(t, Nni(n)))|
    {
      k := PrependBlock(Block(t, Nni(n)));
    }

    /** Turns the `length` bytes in front into the value of a block: length field, then type. */
    method PrependHeader(t: TlvType, length: nat) returns (k: nat)
      requires length <= |bytes|
      modifies this
      ensures bytes == Wire(Block(t, old(bytes)[..length])) + old(bytes)[length..]
      ensures k == VarSize(length) + VarSize(t)
    {
      var l := PrependVarNumber(length);
      var m := PrependVarNumber(t);
      k := l + m;
      assert old(bytes) == old(bytes)[..length] + old(bytes)[length..];
    }
  }
}
